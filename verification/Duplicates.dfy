/**
 Merging duplicates into their keepers, as the global decision asks for it. Which problems a
 group takes away depends on what earlier groups have moved around, because a problem that has
 come to carry a forward source is never taken. A ledger replays the groups on the input alone:
 who holds what each problem brought along, who has taken something over, who is gone.
 */
module Duplicates {
  import opened Sorting
  import opened Text
  import opened Basics

  /** A candidate problem; `isExcluded` marks workflow changes other than formatting. */
  datatype Problem = Problem(isPrimary: bool, isSingleton: bool, isExcluded: bool, sourceIds: seq<string>,
                             files: seq<string>)

  /** Problems by id; ids have just been assigned, so they are distinct. */
  type Table = map<int, Problem>

  /** A duplicate group of the model's answer. Entries that are not integers are None. */
  datatype Group = Group(keep: Option<int>, drops: set<Option<int>>)

  function ValidInts(values: set<Option<int>>, ids: set<int>): set<int> {
    set i | i in ids && Some(i) in values
  }

  predicate FromDirection(direction: char, sourceIds: seq<string>) {
    exists i :: 0 <= i < |sourceIds| && sourceIds[i] != "" && sourceIds[i][0] == direction
  }

  // ---------- Lists of strings ----------

  /** The values of a list as they come out of normalisation. */
  function Values(s: seq<string>): set<string> {
    set x | x in s && Strip(x) != "" :: Strip(x)
  }

  /** Stripped, non-empty, without repeats, in order of first appearance. */
  function FirstSeen(values: seq<string>): seq<string> {
    if values == [] then [] else
      var before, text := FirstSeen(values[..|values| - 1]), Strip(values[|values| - 1]);
      if text == "" || text in before then before else before + [text]
  }

  method UniqueStrings(values: seq<string>) returns (output: seq<string>)
    ensures output == FirstSeen(values)
    ensures Elems(output) == Values(values) && Distinct(output)
    ensures forall v :: v in output <==> v != "" && exists x :: x in values && Strip(x) == v
  {
    output := [];
    for i := 0 to |values|
      invariant output == FirstSeen(values[..i])
    {
      var text := Strip(values[i]);
      TakeNext(values, i);
      if text != "" && text !in output {
        output := output + [text];
      }
    }
    TakeAll(values);
    FirstSeenValues(values);
    assert forall v :: v in output <==> v in Elems(output);
  }

  /** Whatever stands earlier in the output was seen before every occurrence of what stands later. */
  lemma {:induction false} FirstSeenInOrder(values: seq<string>, i: nat, j: nat, a: nat)
    requires i < j < |FirstSeen(values)| && a < |values| && Strip(values[a]) == FirstSeen(values)[j]
    ensures exists b :: 0 <= b < a && Strip(values[b]) == FirstSeen(values)[i]
  {
    var n := |values| - 1;
    var before, out := FirstSeen(values[..n]), FirstSeen(values);
    FirstSeenValues(values[..n]);
    assert forall v :: v in before <==> v in Values(values[..n]);
    if a == n {
      assert out[i] in before;
      var x :| x in values[..n] && Strip(x) == out[i];
      var b :| 0 <= b < n && values[..n][b] == x;
      assert values[b] == x;
    } else {
      assert values[..n][a] == values[a] && values[a] in values[..n];
      FirstSeenInOrder(values[..n], i, j, a);
      var b :| 0 <= b < a && Strip(values[..n][b]) == before[i];
      assert values[b] == values[..n][b];
    }
  }

  lemma {:induction false} FirstSeenValues(values: seq<string>)
    ensures Elems(FirstSeen(values)) == Values(values) && Distinct(FirstSeen(values))
  {
    if values != [] {
      var n := |values| - 1;
      FirstSeenValues(values[..n]);
      ValuesAppend(values[..n], values[n]);
      assert values == values[..n] + [values[n]];
      ElemsAppend(FirstSeen(values[..n]), Strip(values[n]));
      assert forall v :: v in FirstSeen(values[..n]) <==> v in Elems(FirstSeen(values[..n]));
    }
  }

  lemma {:induction false} ValuesAppend(s: seq<string>, x: string)
    ensures Values(s + [x]) == Values(s) + if Strip(x) == "" then {} else {Strip(x)}
  {
  }

  lemma {:induction false} ValuesJoin(a: seq<string>, b: seq<string>)
    ensures Values(a + b) == Values(a) + Values(b)
  {
  }

  lemma {:induction false} ValuesStable(s: seq<string>, r: seq<string>)
    requires Elems(r) == Values(s)
    ensures Values(r) == Values(s)
  {
    forall v ensures v in Values(r) <==> v in Values(s) {
      if v in Values(s) {
        var x :| x in s && Strip(x) == v;
        StripTwice(x);
        assert v in Elems(r);
      }
      if v in Values(r) {
        var y :| y in r && Strip(y) == v;
        assert y in Elems(r);
        var x :| x in s && Strip(x) == y;
        StripTwice(x);
      }
    }
  }

  // ---------- Forward sources ----------

  ghost predicate Stripped(s: seq<string>) {
    forall i :: 0 <= i < |s| ==> s[i] != "" && Strip(s[i]) == s[i]
  }

  lemma {:induction false} StrippedOutput(s: seq<string>, r: seq<string>)
    requires Elems(r) == Values(s)
    ensures Stripped(r)
  {
    forall i | 0 <= i < |r| ensures r[i] != "" && Strip(r[i]) == r[i] {
      assert r[i] in Elems(r);
      var x :| x in s && Strip(x) != "" && Strip(x) == r[i];
      StripTwice(x);
    }
  }

  lemma {:induction false} StripKeepsFirst(x: string)
    requires x != "" && !IsBlank(x[0])
    ensures Strip(x) != "" && Strip(x)[0] == x[0]
  {
    assert TrimLeft(x) == x;
    TrimKeepsFirst(x);
  }

  lemma {:induction false} TrimKeepsFirst(x: string)
    requires x != "" && !IsBlank(x[0])
    ensures TrimRight(x) != ""
  {
    if |x| > 1 && IsBlank(x[|x| - 1]) {
      TrimKeepsFirst(x[..|x| - 1]);
    }
  }

  predicate Forward(values: set<string>) {
    exists v :: v in values && v != "" && v[0] == 'F'
  }

  lemma {:induction false} ForwardValues(s: seq<string>)
    ensures FromDirection('F', s) ==> Forward(Values(s))
    ensures Stripped(s) && Forward(Values(s)) ==> FromDirection('F', s)
  {
    if FromDirection('F', s) {
      var i :| 0 <= i < |s| && s[i] != "" && s[i][0] == 'F';
      StripKeepsFirst(s[i]);
      assert Strip(s[i]) in Values(s);
    }
    if Stripped(s) && Forward(Values(s)) {
      var v :| v in Values(s) && v != "" && v[0] == 'F';
      var x :| x in s && Strip(x) == v;
      var i :| 0 <= i < |s| && s[i] == x;
    }
  }

  // ---------- The ledger ----------

  /** The two lists that a keeper takes over from its duplicates. */
  datatype Field = Files | Sources

  function Get(p: Problem, f: Field): seq<string> {
    match f
    case Files => p.files
    case Sources => p.sourceIds
  }

  /** Who holds what each problem brought along, who took something over, and who was taken. */
  datatype Ledger = Ledger(holders: map<int, set<int>>, keepers: set<int>, dropped: set<int>)

  function HoldersOf(l: Ledger, p: int): set<int> {
    if p in l.holders then l.holders[p] else {}
  }

  /** A keeper shows the stripped labels of all it holds for; the others still show their own. */
  predicate ForwardIn(t: Table, l: Ledger, q: int)
    requires q in t
  {
    if q in l.keepers
    then exists p :: p in t && q in HoldersOf(l, p) && Forward(Values(t[p].sourceIds))
    else FromDirection('F', t[q].sourceIds)
  }

  /** Group g asks to merge x, which was clustered, into another known problem. */
  predicate Requests(t: Table, g: Group, x: int) {
    g.keep.Some? && g.keep.value in t && g.keep.value != x && Some(x) in g.drops && x in t && !t[x].isSingleton
  }

  /** The problems that group g takes away, given the ledger before it. */
  function Taken(t: Table, l: Ledger, g: Group): set<int> {
    set x | x in t && Requests(t, g, x) && !ForwardIn(t, l, x)
  }

  /** Keeper k takes over from all of `taken`. */
  function Absorb(l: Ledger, k: int, taken: set<int>): Ledger {
    if taken == {} then l else
      Ledger(map p | p in l.holders :: if l.holders[p] !! taken then l.holders[p] else l.holders[p] + {k},
             l.keepers + {k}, l.dropped + taken)
  }

  function Step(t: Table, l: Ledger, g: Group): Ledger {
    if g.keep.None? then l else Absorb(l, g.keep.value, Taken(t, l, g))
  }

  /** The ledger after all groups, in their order. */
  function After(t: Table, groups: seq<Group>): Ledger {
    if groups == [] then Ledger(map p | p in t :: {p}, {}, {})
    else Step(t, After(t, groups[..|groups| - 1]), groups[|groups| - 1])
  }

  /** What the group at place j takes away. */
  function TakenAt(t: Table, groups: seq<Group>, j: nat): set<int>
    requires j < |groups|
  {
    Taken(t, After(t, groups[..j]), groups[j])
  }

  lemma {:induction false} AbsorbMore(l: Ledger, k: int, done: set<int>, d: int)
    requires k !in done && d != k
    ensures Absorb(Absorb(l, k, done), k, {d}) == Absorb(l, k, done + {d})
  {
    var a, b := Absorb(Absorb(l, k, done), k, {d}), Absorb(l, k, done + {d});
    forall p | p in l.holders ensures a.holders[p] == b.holders[p] {
      assert l.holders[p] !! done + {d} <==> l.holders[p] !! done && l.holders[p] !! {d};
      assert l.holders[p] + {k} !! {d} <==> l.holders[p] !! {d};
    }
    assert a.keepers == b.keepers;
    assert a.dropped == b.dropped;
  }

  // ---------- The table that the loop works on ----------

  ghost predicate Brought(t: Table, l: Ledger, q: int, f: Field, v: string) {
    exists p :: p in t && q in HoldersOf(l, p) && v in Values(Get(t[p], f))
  }

  ghost predicate Carries(t: Table, byId: Table, l: Ledger, q: int, f: Field)
    requires q in t && q in byId
  {
    forall v :: v in Values(Get(byId[q], f)) <==> Brought(t, l, q, f, v)
  }

  /** Only the two lists of a problem ever change, and only those of a keeper. */
  ghost predicate ListsOnly(t: Table, byId: Table, l: Ledger, q: int)
    requires q in t && q in byId
  {
    && byId[q] == t[q].(sourceIds := byId[q].sourceIds, files := byId[q].files)
    && if q in l.keepers then Stripped(byId[q].sourceIds) else byId[q] == t[q]
  }

  /** The table is what the ledger says: each problem carries what the problems it holds for brought. */
  ghost predicate Represents(t: Table, byId: Table, l: Ledger) {
    && byId.Keys == t.Keys == l.holders.Keys
    && (forall q :: q in t ==> ListsOnly(t, byId, l, q))
    && (forall q, f :: q in t ==> Carries(t, byId, l, q, f))
  }

  /** The guard of the loop, which reads the table, is the guard on the ledger. */
  lemma {:induction false} ForwardReadsTable(t: Table, byId: Table, l: Ledger, q: int)
    requires Represents(t, byId, l) && q in t
    ensures FromDirection('F', byId[q].sourceIds) <==> ForwardIn(t, l, q)
  {
    assert ListsOnly(t, byId, l, q);
    if q in l.keepers {
      assert Carries(t, byId, l, q, Sources);
      ForwardValues(byId[q].sourceIds);
      if ForwardIn(t, l, q) {
        var p :| p in t && q in HoldersOf(l, p) && Forward(Values(t[p].sourceIds));
        var v :| v in Values(t[p].sourceIds) && v != "" && v[0] == 'F';
        assert v in Values(Get(t[p], Sources));
        assert Brought(t, l, q, Sources, v);
        assert v in Values(Get(byId[q], Sources));
      }
      if Forward(Values(byId[q].sourceIds)) {
        var v :| v in Values(byId[q].sourceIds) && v != "" && v[0] == 'F';
        assert v in Values(Get(byId[q], Sources));
        assert Brought(t, l, q, Sources, v);
        var p :| p in t && q in HoldersOf(l, p) && v in Values(Get(t[p], Sources));
        assert Forward(Values(t[p].sourceIds));
      }
    }
  }

  lemma {:induction false} BroughtAbsorb(t: Table, l: Ledger, k: int, d: int, q: int, f: Field, v: string)
    requires l.holders.Keys == t.Keys && k != d
    ensures Brought(t, Absorb(l, k, {d}), q, f, v) <==>
            Brought(t, l, q, f, v) || (q == k && Brought(t, l, d, f, v))
  {
    var after := Absorb(l, k, {d});
    forall p | p in t ensures q in HoldersOf(after, p) <==>
                              q in HoldersOf(l, p) || (q == k && d in HoldersOf(l, p))
    {
      assert l.holders[p] !! {d} <==> d !in l.holders[p];
    }
  }

  /** k after taking over the lists of d. */
  function Union(keeper: Problem, duplicate: Problem): Problem {
    keeper.(files := FirstSeen(keeper.files + duplicate.files),
            sourceIds := FirstSeen(keeper.sourceIds + duplicate.sourceIds))
  }

  lemma {:induction false} UnionValues(a: Problem, b: Problem, f: Field)
    ensures Values(Get(Union(a, b), f)) == Values(Get(a, f)) + Values(Get(b, f))
    ensures Stripped(Get(Union(a, b), f))
  {
    var s := Get(a, f) + Get(b, f);
    FirstSeenValues(s);
    ValuesStable(s, FirstSeen(s));
    ValuesJoin(Get(a, f), Get(b, f));
    StrippedOutput(s, FirstSeen(s));
  }

  lemma {:induction false} RepresentsUnion(t: Table, byId: Table, l: Ledger, k: int, d: int)
    requires Represents(t, byId, l) && k in t && d in t && d != k
    ensures Represents(t, byId[k := Union(byId[k], byId[d])], Absorb(l, k, {d}))
  {
    var after := byId[k := Union(byId[k], byId[d])];
    forall q | q in t ensures ListsOnly(t, after, Absorb(l, k, {d}), q) {
      assert ListsOnly(t, byId, l, q);
      UnionValues(byId[k], byId[d], Sources);
    }
    forall q, f | q in t ensures Carries(t, after, Absorb(l, k, {d}), q, f) {
      UnionCarries(t, byId, l, k, d, q, f);
    }
  }

  lemma {:induction false} UnionCarries(t: Table, byId: Table, l: Ledger, k: int, d: int, q: int, f: Field)
    requires Represents(t, byId, l) && k in t && d in t && d != k && q in t
    ensures Carries(t, byId[k := Union(byId[k], byId[d])], Absorb(l, k, {d}), q, f)
  {
    assert Carries(t, byId, l, q, f) && Carries(t, byId, l, d, f);
    UnionValues(byId[k], byId[d], f);
    forall v ensures Brought(t, Absorb(l, k, {d}), q, f, v) <==>
                     Brought(t, l, q, f, v) || (q == k && Brought(t, l, d, f, v))
    {
      BroughtAbsorb(t, l, k, d, q, f, v);
    }
  }

  // ---------- The loop ----------

  /** The keeper takes over the files and the source ids of its duplicate, its own first. */
  method MergeInto(byId: Table, k: int, d: int) returns (byId': Table)
    requires k in byId && d in byId
    ensures byId' == byId[k := Union(byId[k], byId[d])]
  {
    var files := UniqueStrings(byId[k].files + byId[d].files);
    var sources := UniqueStrings(byId[k].sourceIds + byId[d].sourceIds);
    byId' := byId[k := byId[k].(files := files, sourceIds := sources)];
  }

  /** The loop over the drop ids of g, with `done` taken and `pending` still to be seen. */
  ghost predicate InGroup(t: Table, l: Ledger, g: Group, byId0: Table, byId: Table, done: set<int>, pending: set<int>) {
    && g.keep.Some? && g.keep.value in t && byId0.Keys == byId.Keys == t.Keys
    && pending <= ValidInts(g.drops, t.Keys)
    && done == Taken(t, l, g) - pending
    && Represents(t, byId, Absorb(l, g.keep.value, done))
    && forall x :: x in t && x != g.keep.value ==> byId[x] == byId0[x]
  }

  lemma {:induction false} GuardDecides(t: Table, l: Ledger, g: Group, byId0: Table, byId: Table, done: set<int>,
                                        pending: set<int>,
                     d: int)
    requires Represents(t, byId0, l) && InGroup(t, l, g, byId0, byId, done, pending) && d in pending
    ensures d != g.keep.value && !FromDirection('F', byId[d].sourceIds) && !byId[d].isSingleton <==>
            d in Taken(t, l, g)
  {
    assert d in ValidInts(g.drops, t.Keys);
    ForwardReadsTable(t, byId0, l, d);
    assert ListsOnly(t, byId0, l, d);
  }

  lemma {:induction false} TakeOne(t: Table, l: Ledger, g: Group, byId0: Table, byId: Table, done: set<int>,
                                   pending: set<int>, d: int)
    requires InGroup(t, l, g, byId0, byId, done, pending) && d in pending && d in Taken(t, l, g)
    ensures InGroup(t, l, g, byId0, byId[g.keep.value := Union(byId[g.keep.value], byId[d])],
                    done + {d}, pending - {d})
  {
    RepresentsUnion(t, byId, Absorb(l, g.keep.value, done), g.keep.value, d);
    AbsorbMore(l, g.keep.value, done, d);
  }

  lemma {:induction false} SkipOne(t: Table, l: Ledger, g: Group, byId0: Table, byId: Table, done: set<int>,
                                   pending: set<int>, d: int)
    requires InGroup(t, l, g, byId0, byId, done, pending) && d !in Taken(t, l, g)
    ensures InGroup(t, l, g, byId0, byId, done, pending - {d})
  {
    assert Taken(t, l, g) - pending == Taken(t, l, g) - (pending - {d});
  }

  lemma {:induction false} EnterGroup(t: Table, l: Ledger, g: Group, byId: Table)
    requires Represents(t, byId, l) && g.keep.Some? && g.keep.value in t
    ensures InGroup(t, l, g, byId, byId, {}, ValidInts(g.drops, t.Keys))
  {
    assert Taken(t, l, g) <= ValidInts(g.drops, t.Keys);
  }

  lemma {:induction false} LeaveGroup(t: Table, l: Ledger, g: Group, byId0: Table, byId: Table, done: set<int>)
    requires InGroup(t, l, g, byId0, byId, done, {})
    ensures Represents(t, byId, Step(t, l, g)) && Step(t, l, g).dropped == l.dropped + done
  {
    assert Taken(t, l, g) - {} == Taken(t, l, g);
  }

  /** A group without a known keeper changes nothing. */
  lemma {:induction false} NoKeeper(t: Table, l: Ledger, g: Group)
    requires g.keep.Some? ==> g.keep.value !in t
    ensures Step(t, l, g) == l
  {
    assert Taken(t, l, g) == {};
  }

  /** One duplicate group; its drop ids form a set, so their order is arbitrary. */
  method MergeGroup(ghost t: Table, byId0: Table, dropped0: set<int>, ghost l: Ledger, g: Group)
    returns (byId: Table, dropped: set<int>)
    requires Represents(t, byId0, l) && dropped0 == l.dropped
    ensures Represents(t, byId, Step(t, l, g))
    ensures dropped == Step(t, l, g).dropped
  {
    byId, dropped := byId0, dropped0;
    if g.keep.None? || g.keep.value !in byId {
      NoKeeper(t, l, g);
      return;
    }
    var k, pending := g.keep.value, ValidInts(g.drops, byId.Keys);
    ghost var done: set<int> := {};
    EnterGroup(t, l, g, byId);
    while pending != {}
      invariant InGroup(t, l, g, byId0, byId, done, pending)
      invariant dropped == l.dropped + done
    {
      ghost var some := Pick(pending);
      var d :| d in pending;
      GuardDecides(t, l, g, byId0, byId, done, pending, d);
      if d != k && !FromDirection('F', byId[d].sourceIds) && !byId[d].isSingleton {
        TakeOne(t, l, g, byId0, byId, done, pending, d);
        dropped := dropped + {d};
        byId := MergeInto(byId, k, d);
        done := done + {d};
      } else {
        SkipOne(t, l, g, byId0, byId, done, pending, d);
      }
      pending := pending - {d};
    }
    LeaveGroup(t, l, g, byId0, byId, done);
  }

  /** The loop over duplicate groups. */
  method MergeDuplicates(t: Table, groups: seq<Group>) returns (byId: Table, dropped: set<int>)
    ensures Represents(t, byId, After(t, groups))
    ensures dropped == After(t, groups).dropped
  {
    byId, dropped := t, {};
    NothingMerged(t);
    for n := 0 to |groups|
      invariant Represents(t, byId, After(t, groups[..n]))
      invariant dropped == After(t, groups[..n]).dropped
    {
      TakeNext(groups, n);
      byId, dropped := MergeGroup(t, byId, dropped, After(t, groups[..n]), groups[n]);
    }
    TakeAll(groups);
  }

  lemma {:induction false} NothingMerged(t: Table)
    ensures Represents(t, t, After(t, []))
  {
    var l := After(t, []);
    forall q, f | q in t ensures Carries(t, t, l, q, f) {
      assert q in HoldersOf(l, q);
      forall v | v in Values(Get(t[q], f)) ensures Brought(t, l, q, f, v) {
      }
    }
  }

  // ---------- Who is taken ----------

  /** A problem is gone exactly when the group at some place took it. */
  lemma {:induction false} DroppedIff(t: Table, groups: seq<Group>, x: int)
    ensures x in After(t, groups).dropped <==> exists j :: 0 <= j < |groups| && x in TakenAt(t, groups, j)
  {
    if groups != [] {
      var n := |groups| - 1;
      DroppedIff(t, groups[..n], x);
      forall j | 0 <= j < n ensures TakenAt(t, groups[..n], j) == TakenAt(t, groups, j) {
        TakenBefore(t, groups, n, j);
      }
      assert x in After(t, groups).dropped <==> x in After(t, groups[..n]).dropped || x in TakenAt(t, groups, n);
    }
  }

  lemma {:induction false} TakenBefore(t: Table, groups: seq<Group>, n: nat, j: nat)
    requires j < n <= |groups|
    ensures TakenAt(t, groups[..n], j) == TakenAt(t, groups, j)
  {
    assert groups[..n][..j] == groups[..j];
  }

  lemma {:induction false} HoldsItself(t: Table, groups: seq<Group>, p: int)
    requires p in t
    ensures After(t, groups).holders.Keys == t.Keys
    ensures p in HoldersOf(After(t, groups), p)
  {
    if groups != [] {
      HoldsItself(t, groups[..|groups| - 1], p);
    }
  }

  lemma {:induction false} ForwardStepwise(t: Table, l: Ledger, g: Group, x: int)
    requires x in t && l.holders.Keys == t.Keys && x in HoldersOf(l, x) && ForwardIn(t, l, x)
    ensures ForwardIn(t, Step(t, l, g), x)
  {
    if x in l.keepers {
      var p :| p in t && x in HoldersOf(l, p) && Forward(Values(t[p].sourceIds));
      assert x in HoldersOf(Step(t, l, g), p);
    } else {
      ForwardValues(t[x].sourceIds);
      assert x in HoldersOf(Step(t, l, g), x);
    }
  }

  /** A forward source, once shown, is shown for good. */
  lemma {:induction false} ForwardPersists(t: Table, groups: seq<Group>, i: nat, x: int)
    requires x in t && i <= |groups| && ForwardIn(t, After(t, groups[..i]), x)
    ensures ForwardIn(t, After(t, groups), x)
  {
    if i < |groups| {
      var n := |groups| - 1;
      assert groups[..n][..i] == groups[..i];
      ForwardPersists(t, groups[..n], i, x);
      HoldsItself(t, groups[..n], x);
      ForwardStepwise(t, After(t, groups[..n]), groups[n], x);
    } else {
      TakeAll(groups);
    }
  }

  /** For every table: the first group that asks for a problem decides whether it goes. */
  lemma {:induction false} FirstRequestDecides(t: Table, groups: seq<Group>, j: nat, x: int)
    requires j < |groups| && Requests(t, groups[j], x)
    requires forall i :: 0 <= i < j ==> !Requests(t, groups[i], x)
    ensures x in After(t, groups).dropped <==> !ForwardIn(t, After(t, groups[..j]), x)
  {
    DroppedIff(t, groups, x);
    if !ForwardIn(t, After(t, groups[..j]), x) {
      assert x in TakenAt(t, groups, j);
    } else {
      forall i | 0 <= i < |groups| ensures x !in TakenAt(t, groups, i) {
        if j <= i {
          assert groups[..i][..j] == groups[..j];
          ForwardPersists(t, groups[..i], j, x);
        }
      }
    }
  }

  /** A label that is forward only once stripped does not save p, but it saves p's keeper from then on. */
  lemma {:induction false} BlankLabelSavesKeeper(t: Table, groups: seq<Group>, j: nat, i: nat, p: int)
    requires j < i < |groups| && p in TakenAt(t, groups, j) && Forward(Values(t[p].sourceIds))
    ensures groups[j].keep.Some? && groups[j].keep.value !in TakenAt(t, groups, i)
  {
    var k := groups[j].keep.value;
    TakeNext(groups, j);
    HoldsItself(t, groups[..j], p);
    assert k in HoldersOf(After(t, groups[..j + 1]), p);
    assert groups[..i][..j + 1] == groups[..j + 1];
    ForwardPersists(t, groups[..i], j + 1, k);
  }

  /** A problem with a forward source of its own is never taken, so nobody else holds for it. */
  lemma {:induction false} ForwardHeldAlone(t: Table, groups: seq<Group>, p: int)
    requires p in t && FromDirection('F', t[p].sourceIds)
    ensures p !in After(t, groups).dropped
    ensures HoldersOf(After(t, groups), p) == {p}
  {
    if groups != [] {
      var n := |groups| - 1;
      ForwardHeldAlone(t, groups[..n], p);
      assert groups[..n][..0] == [];
      ForwardPersists(t, groups[..n], 0, p);
      assert p !in Taken(t, After(t, groups[..n]), groups[n]);
    }
  }

  /** No label has blanks around it. The model's own labels may have some. */
  ghost predicate CleanSources(t: Table) {
    forall q :: q in t ==> Stripped(t[q].sourceIds)
  }

  /** With clean labels a problem never gains a forward source. */
  lemma {:induction false} CleanForward(t: Table, groups: seq<Group>, x: int)
    requires CleanSources(t) && x in t
    ensures ForwardIn(t, After(t, groups), x) <==> FromDirection('F', t[x].sourceIds)
  {
    var l := After(t, groups);
    if FromDirection('F', t[x].sourceIds) {
      assert groups[..0] == [];
      ForwardPersists(t, groups, 0, x);
    } else if x in l.keepers && ForwardIn(t, l, x) {
      var p :| p in t && x in HoldersOf(l, p) && Forward(Values(t[p].sourceIds));
      ForwardValues(t[p].sourceIds);
      ForwardHeldAlone(t, groups, p);
    }
  }

  /** With clean labels the requests alone decide, whatever their order. */
  lemma {:induction false} CleanDroppedIff(t: Table, groups: seq<Group>, x: int)
    requires CleanSources(t)
    ensures x in After(t, groups).dropped <==>
            && (exists j :: 0 <= j < |groups| && Requests(t, groups[j], x))
            && x in t && !FromDirection('F', t[x].sourceIds)
  {
    DroppedIff(t, groups, x);
    if x in t {
      forall j | 0 <= j < |groups|
        ensures x in TakenAt(t, groups, j) <==> Requests(t, groups[j], x) && !FromDirection('F', t[x].sourceIds)
      {
        CleanForward(t, groups[..j], x);
      }
    }
  }

  // ---------- Who holds what ----------

  /** Where the data of p stands after following the keepers of the groups at places c. */
  function End(groups: seq<Group>, p: int, c: seq<nat>): Option<int> {
    if c == [] then Some(p)
    else if c[|c| - 1] < |groups| then groups[c[|c| - 1]].keep
    else None
  }

  /** The groups at the rising places c hand the data of p on, each to its keeper. */
  ghost predicate HandsOn(t: Table, groups: seq<Group>, p: int, c: seq<nat>) {
    && (forall i, j :: 0 <= i < j < |c| ==> c[i] < c[j])
    && (forall i :: 0 <= i < |c| ==> HandsOnAt(t, groups, p, c, i))
  }

  ghost predicate HandsOnAt(t: Table, groups: seq<Group>, p: int, c: seq<nat>, i: nat)
    requires i < |c|
  {
    c[i] < |groups| && TakesEnd(t, groups, p, c[..i], c[i])
  }

  /** The group at place j takes the problem where the data of p stands. */
  ghost predicate TakesEnd(t: Table, groups: seq<Group>, p: int, c: seq<nat>, j: nat)
    requires j < |groups|
  {
    End(groups, p, c).Some? && End(groups, p, c).value in TakenAt(t, groups, j)
  }

  ghost predicate Reaches(t: Table, groups: seq<Group>, p: int, q: int) {
    exists c :: HandsOn(t, groups, p, c) && End(groups, p, c) == Some(q)
  }

  /** Following the keepers means the same on a prefix of the groups. */
  lemma {:induction false} HandsOnPrefix(t: Table, groups: seq<Group>, n: nat, p: int, c: seq<nat>)
    requires n <= |groups| && forall i :: 0 <= i < |c| ==> c[i] < n
    ensures HandsOn(t, groups[..n], p, c) <==> HandsOn(t, groups, p, c)
    ensures End(groups[..n], p, c) == End(groups, p, c)
  {
    forall i | 0 <= i < |c| ensures HandsOnAt(t, groups[..n], p, c, i) <==> HandsOnAt(t, groups, p, c, i) {
      TakenBefore(t, groups, n, c[i]);
    }
  }

  lemma {:induction false} HandsOnShorter(t: Table, groups: seq<Group>, p: int, c: seq<nat>, m: nat)
    requires HandsOn(t, groups, p, c) && m <= |c|
    ensures HandsOn(t, groups, p, c[..m])
  {
    forall i | 0 <= i < m ensures HandsOnAt(t, groups, p, c[..m], i) {
      assert HandsOnAt(t, groups, p, c, i);
      assert c[..m][..i] == c[..i];
    }
  }

  lemma {:induction false} HandsOnLonger(t: Table, groups: seq<Group>, p: int, c: seq<nat>, j: nat)
    requires HandsOn(t, groups, p, c) && j < |groups| && forall i :: 0 <= i < |c| ==> c[i] < j
    requires TakesEnd(t, groups, p, c, j)
    ensures HandsOn(t, groups, p, c + [j]) && End(groups, p, c + [j]) == groups[j].keep
  {
    var d := c + [j];
    forall i | 0 <= i < |d| ensures HandsOnAt(t, groups, p, d, i) {
      if i < |c| {
        assert HandsOnAt(t, groups, p, c, i);
        assert d[..i] == c[..i];
      } else {
        assert d[..i] == c;
      }
    }
  }

  lemma {:induction false} HandsOnWithin(t: Table, groups: seq<Group>, p: int, c: seq<nat>)
    requires HandsOn(t, groups, p, c)
    ensures forall i :: 0 <= i < |c| ==> c[i] < |groups|
  {
    forall i | 0 <= i < |c| ensures c[i] < |groups| {
      assert HandsOnAt(t, groups, p, c, i);
    }
  }

  lemma {:induction false} HolderReached(t: Table, groups: seq<Group>, p: int, q: int) returns (c: seq<nat>)
    requires p in t && q in HoldersOf(After(t, groups), p)
    ensures HandsOn(t, groups, p, c) && End(groups, p, c) == Some(q)
  {
    if groups == [] {
      c := [];
    } else {
      var n := |groups| - 1;
      var before := After(t, groups[..n]);
      HoldsItself(t, groups[..n], p);
      if q in HoldersOf(before, p) {
        c := HolderReached(t, groups[..n], p, q);
        HandsOnWithin(t, groups[..n], p, c);
        HandsOnPrefix(t, groups, n, p, c);
      } else {
        var x := Pick(HoldersOf(before, p) * TakenAt(t, groups, n));
        c := HolderReached(t, groups[..n], p, x);
        HandsOnWithin(t, groups[..n], p, c);
        HandsOnPrefix(t, groups, n, p, c);
        HandsOnLonger(t, groups, p, c, n);
        c := c + [n];
      }
    }
  }

  /** A holder stays one, and what the last group takes from a holder its keeper holds as well. */
  lemma {:induction false} HoldersGrow(t: Table, groups: seq<Group>, p: int, x: int)
    requires p in t && groups != [] && x in HoldersOf(After(t, groups[..|groups| - 1]), p)
    ensures x in HoldersOf(After(t, groups), p)
    ensures x in TakenAt(t, groups, |groups| - 1) ==>
              groups[|groups| - 1].keep.Some? && groups[|groups| - 1].keep.value in HoldersOf(After(t, groups), p)
  {
    HoldsItself(t, groups[..|groups| - 1], p);
  }

  /** Without the last group, the same groups still hand on. */
  lemma {:induction false} BeforeLast(t: Table, groups: seq<Group>, p: int, c: seq<nat>)
    requires HandsOn(t, groups, p, c) && c != [] && c[|c| - 1] < |groups| - 1
    ensures HandsOn(t, groups[..|groups| - 1], p, c)
    ensures End(groups[..|groups| - 1], p, c) == End(groups, p, c)
  {
    assert forall i :: 0 <= i < |c| - 1 ==> c[i] < c[|c| - 1];
    HandsOnPrefix(t, groups, |groups| - 1, p, c);
  }

  /** If the last group is the one that hands on last, it takes from where the others led. */
  lemma {:induction false} AtLast(t: Table, groups: seq<Group>, p: int, c: seq<nat>)
    requires HandsOn(t, groups, p, c) && c != [] && c[|c| - 1] == |groups| - 1
    ensures HandsOn(t, groups[..|groups| - 1], p, c[..|c| - 1])
    ensures var x := End(groups[..|groups| - 1], p, c[..|c| - 1]);
            x.Some? && x.value in TakenAt(t, groups, |groups| - 1)
  {
    var n, m := |groups| - 1, |c| - 1;
    assert HandsOnAt(t, groups, p, c, m);
    HandsOnShorter(t, groups, p, c, m);
    assert forall i :: 0 <= i < m ==> c[..m][i] == c[i] && c[i] < c[m];
    HandsOnPrefix(t, groups, n, p, c[..m]);
  }

  lemma {:induction false} ReachedHolds(t: Table, groups: seq<Group>, p: int, q: int, c: seq<nat>)
    requires p in t && HandsOn(t, groups, p, c) && End(groups, p, c) == Some(q)
    ensures q in HoldersOf(After(t, groups), p)
    decreases |groups|
  {
    if c == [] {
      HoldsItself(t, groups, p);
    } else {
      HandsOnWithin(t, groups, p, c);
      var before := groups[..|groups| - 1];
      if c[|c| - 1] < |groups| - 1 {
        BeforeLast(t, groups, p, c);
        ReachedHolds(t, before, p, q, c);
        HoldersGrow(t, groups, p, q);
      } else {
        AtLast(t, groups, p, c);
        var x := End(before, p, c[..|c| - 1]).value;
        ReachedHolds(t, before, p, x, c[..|c| - 1]);
        HoldersGrow(t, groups, p, x);
      }
    }
  }

  /** q ends up with the data of p exactly when groups at rising places hand it on from p to q. */
  lemma {:induction false} HolderIffReached(t: Table, groups: seq<Group>, p: int, q: int)
    requires p in t
    ensures q in HoldersOf(After(t, groups), p) <==> Reaches(t, groups, p, q)
  {
    if q in HoldersOf(After(t, groups), p) {
      var c := HolderReached(t, groups, p, q);
    }
    if Reaches(t, groups, p, q) {
      var c :| HandsOn(t, groups, p, c) && End(groups, p, c) == Some(q);
      ReachedHolds(t, groups, p, q, c);
    }
  }
}
