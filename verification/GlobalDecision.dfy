/**
 The guards around the global filtering decision. Whatever the model answers, the workflow
 exclusion and the protection rules are applied to its answer, duplicates are merged into
 their keepers, and what is left is selected.
 */
module GlobalDecision {
  import opened Sorting
  import opened Basics
  import opened Text
  import opened Duplicates

  datatype Decision = Decision(irrelevant: set<Option<int>>, primary: set<Option<int>>, validated: set<Option<int>>,
                               workflowExcluded: set<int>, groups: seq<Group>)

  // ---------- Enforcement ----------

  function Excluded(t: Table): set<int> {
    set i | i in t && t[i].isExcluded
  }

  function EnforceWorkflowExclusion(d: Decision, t: Table): Decision {
    d.(irrelevant := (set v | v in d.irrelevant && v.Some?) + (set i | i in Excluded(t) :: Some(i)),
       workflowExcluded := Excluded(t))
  }

  /** Backward singletons, validated problems and everything that was clustered. */
  function Protected(d: Decision, t: Table): set<int> {
    (set i | i in t && t[i].isSingleton && FromDirection('B', t[i].sourceIds))
    + ValidInts(d.validated, t.Keys)
    + (set i | i in t && !t[i].isSingleton)
    - d.workflowExcluded
  }

  function EnforcePrimaryRules(d: Decision, t: Table): Decision {
    d.(irrelevant := set i | i in ValidInts(d.irrelevant, t.Keys) && i !in Protected(d, t) :: Some(i),
       primary := set i | i in t && (t[i].isPrimary || Some(i) in d.primary) :: Some(i))
  }

  function Enforce(d: Decision, t: Table): Decision {
    EnforcePrimaryRules(EnforceWorkflowExclusion(d, t), t)
  }

  /** Excluded workflow changes, and unprotected singletons the model rejects. */
  predicate Rejected(t: Table, answer: Decision, i: int)
    requires i in t
  {
    || t[i].isExcluded
    || (&& Some(i) in answer.irrelevant && t[i].isSingleton
        && !FromDirection('B', t[i].sourceIds) && Some(i) !in answer.validated)
  }

  /** What stays irrelevant after both enforcement steps. */
  lemma {:induction false} EnforcedIrrelevant(answer: Decision, t: Table, i: int)
    requires i in t
    ensures i in ValidInts(Enforce(answer, t).irrelevant, t.Keys) <==> Rejected(t, answer, i)
  {
    var w := EnforceWorkflowExclusion(answer, t);
    assert i in Excluded(t) <==> t[i].isExcluded;
    assert Some(i) in w.irrelevant <==> Some(i) in answer.irrelevant || i in Excluded(t);
    assert i in ValidInts(w.irrelevant, t.Keys) <==> Some(i) in w.irrelevant;
    assert Some(i) in Enforce(answer, t).irrelevant <==> i in ValidInts(w.irrelevant, t.Keys) && i !in Protected(w, t);
  }

  /** Known primaries stay primary, and the model may name more. */
  lemma {:induction false} EnforcedPrimary(answer: Decision, t: Table, i: int)
    requires i in t
    ensures Some(i) in Enforce(answer, t).primary <==> t[i].isPrimary || Some(i) in answer.primary
  {
  }

  // ---------- Selection ----------

  ghost predicate Selected(t: Table, d: Decision, i: int) {
    i in t && i !in ValidInts(d.irrelevant, t.Keys) && i !in After(t, d.groups).dropped
  }

  function AscendingKeys(ids: set<int>): Keys {
    map i | i in ids :: Key(i, 0, 0)
  }

  method ListIds(ids: set<int>) returns (list: seq<int>)
    ensures Distinct(list) && Elems(list) == ids
  {
    list := [];
    var rest := ids;
    while rest != {}
      invariant Distinct(list) && Elems(list) + rest == ids && Elems(list) !! rest
    {
      ghost var some := Pick(rest);
      var i :| i in rest;
      assert i !in Elems(list);
      ElemsAppend(list, i);
      list, rest := list + [i], rest - {i};
    }
  }

  method SortedIds(ids: set<int>) returns (list: seq<int>)
    ensures Elems(list) == ids
    ensures forall i, j :: 0 <= i < j < |list| ==> list[i] < list[j]
  {
    var any := ListIds(ids);
    list := Sort(AscendingKeys(ids), any);
    SameMembers(any, list);
    forall i, j | 0 <= i < j < |list| ensures list[i] < list[j] {
      assert list[i] in Elems(list) && list[j] in Elems(list);
      assert !At(AscendingKeys(ids), list[j]).Below(At(AscendingKeys(ids), list[i]));
    }
  }

  /** Selected problem i has its final class and carries what the problems it holds for brought. */
  ghost predicate Finished(t: Table, d: Decision, byId: Table, i: int)
    requires i in t && i in byId
  {
    && byId[i].isPrimary == (Some(i) in d.primary)
    && (forall f :: Carries(t, byId, After(t, d.groups), i, f))
    && (i !in After(t, d.groups).keepers ==> byId[i] == t[i].(isPrimary := byId[i].isPrimary))
  }

  /** The result of applying decision d: the selected ids in order, with their finished problems. */
  ghost predicate Outcome(t: Table, d: Decision, ids: seq<int>, byId: Table) {
    && (forall i :: i in ids <==> Selected(t, d, i))
    && (forall i, j :: 0 <= i < j < |ids| ==> ids[i] < ids[j])
    && byId.Keys == t.Keys
    && (forall i :: i in ids ==> i in t && Finished(t, d, byId, i))
  }

  /** Problems that survive, in id order, with what they carry and their final class. */
  method ApplyGlobalDecision(t: Table, d: Decision) returns (ids: seq<int>, byId: Table)
    ensures Outcome(t, d, ids, byId)
  {
    var merged, dropped := MergeDuplicates(t, d.groups);
    ids := SortedIds(t.Keys - ValidInts(d.irrelevant, t.Keys) - dropped);
    byId := map i | i in merged :: merged[i].(isPrimary := i in ValidInts(d.primary, t.Keys));
    forall i ensures i in ids <==> Selected(t, d, i) {
      assert i in ids <==> i in Elems(ids);
    }
    forall i | i in ids ensures i in t && Finished(t, d, byId, i) {
      ClassKeepsData(t, d, merged, byId, i);
    }
  }

  lemma {:induction false} ClassKeepsData(t: Table, d: Decision, merged: Table, byId: Table, i: int)
    requires Represents(t, merged, After(t, d.groups)) && i in t && i in byId
    requires byId[i] == merged[i].(isPrimary := Some(i) in d.primary)
    ensures Finished(t, d, byId, i)
  {
    assert ListsOnly(t, merged, After(t, d.groups), i);
    forall f ensures Carries(t, byId, After(t, d.groups), i, f) {
      assert Carries(t, merged, After(t, d.groups), i, f);
      assert Get(byId[i], f) == Get(merged[i], f);
    }
  }

  // ---------- What the guards guarantee ----------

  /** Exactly which problems go, read off the candidates and the answer for every table. */
  ghost predicate Removed(t: Table, answer: Decision, i: int)
    requires i in t
  {
    Rejected(t, answer, i) || exists j :: 0 <= j < |answer.groups| && i in TakenAt(t, answer.groups, j)
  }

  lemma {:induction false} RemovedExactly(t: Table, answer: Decision, i: int)
    requires i in t
    ensures Selected(t, Enforce(answer, t), i) <==> !Removed(t, answer, i)
  {
    EnforcedIrrelevant(answer, t, i);
    DroppedIff(t, answer.groups, i);
  }

  /** Group g names i as a duplicate of another known problem. */
  ghost predicate NamesDuplicate(t: Table, g: Group, i: int) {
    exists k :: k in t && k != i && g.keep == Some(k) && Some(i) in g.drops
  }

  /**
   With clean labels, exactly these problems go: excluded workflow changes; singletons without a backward
   source that the model rejects and nobody validated; clustered problems without a forward source that
   some group names as a duplicate.
   */
  lemma {:induction false} RemovedWithCleanLabels(t: Table, answer: Decision, i: int)
    requires i in t && CleanSources(t)
    ensures Removed(t, answer, i) <==>
            || t[i].isExcluded
            || (&& t[i].isSingleton && Some(i) in answer.irrelevant && Some(i) !in answer.validated
                && forall x :: x in t[i].sourceIds && x != "" ==> x[0] != 'B')
            || (&& !t[i].isSingleton && (forall x :: x in t[i].sourceIds && x != "" ==> x[0] != 'F')
                && exists j :: 0 <= j < |answer.groups| && NamesDuplicate(t, answer.groups[j], i))
  {
    DroppedIff(t, answer.groups, i);
    CleanDroppedIff(t, answer.groups, i);
    DirectionIs('B', t[i].sourceIds);
    DirectionIs('F', t[i].sourceIds);
    if j :| 0 <= j < |answer.groups| && Requests(t, answer.groups[j], i) {
      assert NamesDuplicate(t, answer.groups[j], i);
    }
    if j :| 0 <= j < |answer.groups| && NamesDuplicate(t, answer.groups[j], i) && !t[i].isSingleton {
      assert Requests(t, answer.groups[j], i);
    }
  }

  lemma {:induction false} DirectionIs(direction: char, sourceIds: seq<string>)
    ensures FromDirection(direction, sourceIds) <==> exists x :: x in sourceIds && x != "" && x[0] == direction
  {
    if x :| x in sourceIds && x != "" && x[0] == direction {
      var i :| 0 <= i < |sourceIds| && sourceIds[i] == x;
    }
  }

  /** A singleton, or a problem with a forward source of its own, goes only if it is rejected. */
  lemma {:induction false} GuardsHold(t: Table, answer: Decision, i: int)
    requires i in t && (t[i].isSingleton || FromDirection('F', t[i].sourceIds))
    ensures Removed(t, answer, i) <==> Rejected(t, answer, i)
  {
    DroppedIff(t, answer.groups, i);
    if FromDirection('F', t[i].sourceIds) {
      ForwardHeldAlone(t, answer.groups, i);
    }
  }

  // ---------- What is carried along ----------

  /** Some selected problem carries v. */
  ghost predicate Carried(ids: seq<int>, byId: Table, f: Field, v: string) {
    exists i :: i in ids && i in byId && v in Values(Get(byId[i], f))
  }

  /** Some problem that brought v has a holder that stays. */
  ghost predicate Held(t: Table, answer: Decision, f: Field, v: string) {
    exists p, q :: p in t && v in Values(Get(t[p], f)) && q in t
                   && q in HoldersOf(After(t, answer.groups), p) && !Removed(t, answer, q)
  }

  lemma {:induction false} CarriedIffHeld(t: Table, answer: Decision, ids: seq<int>, byId: Table, f: Field, v: string)
    requires Outcome(t, Enforce(answer, t), ids, byId)
    ensures Carried(ids, byId, f, v) <==> Held(t, answer, f, v)
  {
    forall i | i in t ensures i in ids <==> !Removed(t, answer, i) {
      RemovedExactly(t, answer, i);
    }
    if Carried(ids, byId, f, v) {
      var i :| i in ids && i in byId && v in Values(Get(byId[i], f));
      assert Carries(t, byId, After(t, answer.groups), i, f);
      var p :| p in t && i in HoldersOf(After(t, answer.groups), p) && v in Values(Get(t[p], f));
    }
    if Held(t, answer, f, v) {
      var p, q :| p in t && v in Values(Get(t[p], f)) && q in t
                  && q in HoldersOf(After(t, answer.groups), p) && !Removed(t, answer, q);
      assert Brought(t, After(t, answer.groups), q, f, v);
      assert Carries(t, byId, After(t, answer.groups), q, f);
    }
  }

  /** v is a file or source id of a problem that was not rejected. */
  ghost predicate Owed(t: Table, answer: Decision, f: Field, v: string) {
    exists p :: p in t && !Rejected(t, answer, p) && v in Values(Get(t[p], f))
  }

  /** The selected problems carry everything of every problem that was not rejected. */
  ghost predicate LosesNothing(t: Table, answer: Decision, ids: seq<int>, byId: Table) {
    forall f, v :: Owed(t, answer, f, v) ==> Carried(ids, byId, f, v)
  }

  /** The condition for that, on the candidates and the answer alone. */
  ghost predicate AllHeld(t: Table, answer: Decision) {
    forall f, v :: Owed(t, answer, f, v) ==> Held(t, answer, f, v)
  }

  /**
   Enforcing the rules and applying the decision, for every answer of the model. A workflow-excluded
   problem is never selected; any other backward singleton, and any other clustered problem with a
   forward source, always is; what is removed and whether data is lost can be read off the input.
   */
  method FilterAndDeduplicate(t: Table, answer: Decision) returns (ids: seq<int>, byId: Table)
    ensures Outcome(t, Enforce(answer, t), ids, byId)
    ensures forall i :: i in t && t[i].isExcluded ==> i !in ids
    ensures forall i, x :: i in t && !t[i].isExcluded && t[i].isSingleton && x in t[i].sourceIds && "B" <= x ==>
                             i in ids
    ensures forall i, x :: i in t && !t[i].isExcluded && !t[i].isSingleton && x in t[i].sourceIds && "F" <= x ==>
                             i in ids
    ensures forall i :: i in t ==> (i !in ids <==> Removed(t, answer, i))
    ensures forall i :: i in ids ==> i in byId && (byId[i].isPrimary <==> t[i].isPrimary || Some(i) in answer.primary)
    ensures LosesNothing(t, answer, ids, byId) <==> AllHeld(t, answer)
  {
    ids, byId := ApplyGlobalDecision(t, Enforce(answer, t));
    forall i | i in t
      ensures i in ids <==> !Removed(t, answer, i)
      ensures t[i].isSingleton || FromDirection('F', t[i].sourceIds) ==> (i in ids <==> !Rejected(t, answer, i))
      ensures forall x :: x in t[i].sourceIds && "B" <= x ==> FromDirection('B', t[i].sourceIds)
      ensures forall x :: x in t[i].sourceIds && "F" <= x ==> FromDirection('F', t[i].sourceIds)
    {
      DirectionIs('B', t[i].sourceIds);
      DirectionIs('F', t[i].sourceIds);
      RemovedExactly(t, answer, i);
      if t[i].isSingleton || FromDirection('F', t[i].sourceIds) {
        GuardsHold(t, answer, i);
      }
    }
    forall i | i in ids ensures i in byId && (byId[i].isPrimary <==> t[i].isPrimary || Some(i) in answer.primary) {
      assert Finished(t, Enforce(answer, t), byId, i);
      EnforcedPrimary(answer, t, i);
    }
    forall f, v ensures Carried(ids, byId, f, v) <==> Held(t, answer, f, v) {
      CarriedIffHeld(t, answer, ids, byId, f, v);
    }
  }

  /** The data of p reaches a problem that stays. */
  ghost predicate Kept(t: Table, answer: Decision, p: int) {
    exists q :: q in t && Reaches(t, answer.groups, p, q) && !Removed(t, answer, q)
  }

  lemma {:induction false} KeptIsHeld(t: Table, answer: Decision, p: int, f: Field, v: string)
    requires p in t && Kept(t, answer, p) && v in Values(Get(t[p], f))
    ensures Held(t, answer, f, v)
  {
    var q :| q in t && Reaches(t, answer.groups, p, q) && !Removed(t, answer, q);
    HolderIffReached(t, answer.groups, p, q);
  }

  /** v is in the list of p and of no other problem. */
  ghost predicate Own(t: Table, p: int, f: Field, v: string)
    requires p in t
  {
    forall b :: b in t ==> (v in Values(Get(t[b], f)) <==> b == p)
  }

  /** What only p brought survives exactly if rising groups hand it on to a problem that stays. */
  lemma {:induction false} OwnHeldIffKept(t: Table, answer: Decision, p: int, f: Field, v: string)
    requires p in t && Own(t, p, f, v)
    ensures Held(t, answer, f, v) <==> Kept(t, answer, p)
  {
    assert v in Values(Get(t[p], f));
    if Kept(t, answer, p) {
      KeptIsHeld(t, answer, p, f, v);
    }
    if Held(t, answer, f, v) {
      var b, q :| b in t && v in Values(Get(t[b], f)) && q in t
                  && q in HoldersOf(After(t, answer.groups), b) && !Removed(t, answer, q);
      assert b == p;
      HolderIffReached(t, answer.groups, p, q);
    }
  }

  /** No group that takes something has a keeper that goes. */
  ghost predicate KeepersStay(t: Table, answer: Decision) {
    forall j :: 0 <= j < |answer.groups| && TakenAt(t, answer.groups, j) != {} ==>
                  && answer.groups[j].keep.Some? && answer.groups[j].keep.value in t
                  && !Removed(t, answer, answer.groups[j].keep.value)
  }

  /** If the keepers stay, nothing is lost, for any number and order of groups. */
  lemma {:induction false} NothingLostIfKeepersStay(t: Table, answer: Decision)
    requires KeepersStay(t, answer)
    ensures AllHeld(t, answer)
  {
    forall f, v | Owed(t, answer, f, v) ensures Held(t, answer, f, v) {
      var p :| p in t && !Rejected(t, answer, p) && v in Values(Get(t[p], f));
      KeptByKeeper(t, answer, p);
      KeptIsHeld(t, answer, p, f, v);
    }
  }

  lemma {:induction false} KeptByKeeper(t: Table, answer: Decision, p: int)
    requires KeepersStay(t, answer) && p in t && !Rejected(t, answer, p)
    ensures Kept(t, answer, p)
  {
    var groups := answer.groups;
    if j :| 0 <= j < |groups| && p in TakenAt(t, groups, j) {
      HandsOnLonger(t, groups, p, [], j);
      assert Reaches(t, groups, p, groups[j].keep.value);
    } else {
      assert HandsOn(t, groups, p, []) && End(groups, p, []) == Some(p);
      assert Reaches(t, groups, p, p);
    }
  }

  // ---------- The order of the groups matters ----------

  function Clustered(source: string, file: string): Problem {
    Problem(false, false, false, [source], [file])
  }

  /** Three clustered backward problems with a file each. */
  function ThreeProblems(): Table {
    map[1 := Clustered("B1", "a"), 2 := Clustered("B2", "b"), 3 := Clustered("B3", "c")]
  }

  function Answer(groups: seq<Group>): Decision {
    Decision({}, {}, {}, {}, groups)
  }

  /** All were clustered, with clean labels and no forward source. */
  ghost predicate Plain(t: Table) {
    CleanSources(t) && forall x :: x in t ==> !t[x].isSingleton && !FromDirection('F', t[x].sourceIds)
  }

  lemma {:induction false} ClusteredFacts(source: string, file: string)
    requires source != "" && !IsBlank(source[0]) && !IsBlank(source[|source| - 1]) && source[0] != 'F'
    requires file != "" && !IsBlank(file[0]) && !IsBlank(file[|file| - 1])
    ensures Values(Get(Clustered(source, file), Files)) == {file}
    ensures Stripped(Clustered(source, file).sourceIds) && !FromDirection('F', Clustered(source, file).sourceIds)
  {
    assert Strip(file) == file && [file][0] == file;
  }

  lemma {:induction false} ThreeFacts()
    ensures Plain(ThreeProblems())
    ensures Own(ThreeProblems(), 1, Files, "a") && Own(ThreeProblems(), 2, Files, "b")
  {
    ClusteredFacts("B1", "a");
    ClusteredFacts("B2", "b");
    ClusteredFacts("B3", "c");
    assert "a" != "b" && "b" != "c" && "a" != "c";
  }

  lemma {:induction false} OneDropTaken(t: Table, groups: seq<Group>, k: int, d: int)
    requires Plain(t) && k in t && d in t && k != d
    ensures After(t, groups + [Group(Some(k), {Some(d)})]) == Absorb(After(t, groups), k, {d})
  {
    var g := Group(Some(k), {Some(d)});
    CleanForward(t, groups, d);
    assert Taken(t, After(t, groups), g) == {d};
    assert (groups + [g])[..|groups|] == groups;
  }

  lemma {:induction false} AbsorbOne(l: Ledger, k: int, d: int, p: int)
    requires p in l.holders
    ensures p in Absorb(l, k, {d}).holders
    ensures HoldersOf(Absorb(l, k, {d}), p) == HoldersOf(l, p) + if d in HoldersOf(l, p) then {k} else {}
  {
    assert l.holders[p] !! {d} <==> d !in l.holders[p];
  }

  /** d is merged into k, then e into m. */
  function TwoGroups(k: int, d: int, m: int, e: int): seq<Group> {
    [Group(Some(k), {Some(d)}), Group(Some(m), {Some(e)})]
  }

  /** What p brought is then held by p, by k if p is d, and by m if e held it before. */
  lemma {:induction false} TwoMerges(t: Table, k: int, d: int, m: int, e: int, p: int)
    requires Plain(t) && k in t && d in t && m in t && e in t && p in t && k != d && m != e
    ensures After(t, TwoGroups(k, d, m, e)).dropped == {d, e}
    ensures var first := {p} + if p == d then {k} else {};
            HoldersOf(After(t, TwoGroups(k, d, m, e)), p) == first + if e in first then {m} else {}
  {
    var g, h := Group(Some(k), {Some(d)}), Group(Some(m), {Some(e)});
    OneDropTaken(t, [], k, d);
    OneDropTaken(t, [g], m, e);
    assert [] + [g] == [g] && [g] + [h] == TwoGroups(k, d, m, e);
    AbsorbOne(After(t, []), k, d, p);
    AbsorbOne(After(t, [g]), m, e, p);
  }

  /** When 1 and 2 are taken, only problem 3 is selected. */
  lemma {:induction false} OnlyThreeStays(groups: seq<Group>, ids: seq<int>, byId: Table)
    requires Outcome(ThreeProblems(), Enforce(Answer(groups), ThreeProblems()), ids, byId)
    requires After(ThreeProblems(), groups).dropped == {1, 2}
    ensures ids == [3]
  {
    var t, d := ThreeProblems(), Enforce(Answer(groups), ThreeProblems());
    forall i ensures i in ids <==> i == 3 {
      assert i in ids <==> Selected(t, d, i);
      if i in t {
        EnforcedIrrelevant(Answer(groups), t, i);
      }
    }
    OneId(ids, 3);
  }

  lemma {:induction false} OneId(ids: seq<int>, x: int)
    requires forall i :: i in ids <==> i == x
    requires forall i, j :: 0 <= i < j < |ids| ==> ids[i] < ids[j]
    ensures ids == [x]
  {
    assert Elems(ids) == {x};
    CountDistinct(ids);
    assert ids[0] in ids;
  }

  /** If q alone is selected, it carries what only p brought exactly if it holds for p. */
  lemma {:induction false} OwnCarried(t: Table, answer: Decision, ids: seq<int>, byId: Table, p: int, q: int,
                                      f: Field, v: string)
    requires Outcome(t, Enforce(answer, t), ids, byId) && ids == [q] && p in t && Own(t, p, f, v)
    ensures Carried(ids, byId, f, v) <==> q in HoldersOf(After(t, answer.groups), p)
  {
    var l := After(t, answer.groups);
    assert q in ids;
    assert Carries(t, byId, l, q, f);
    assert Carried(ids, byId, f, v) <==> v in Values(Get(byId[q], f));
    assert v in Values(Get(t[p], f));
  }

  /** 1 goes to 3 before 2 goes to 1: the selected problem 3 never learns of file b. */
  lemma {:induction false} ChainInWrongOrderLoses(ids: seq<int>, byId: Table)
    requires Outcome(ThreeProblems(), Enforce(Answer(TwoGroups(3, 1, 1, 2)), ThreeProblems()), ids, byId)
    ensures ids == [3]
    ensures Carried(ids, byId, Files, "a") && !Carried(ids, byId, Files, "b")
    ensures Owed(ThreeProblems(), Answer(TwoGroups(3, 1, 1, 2)), Files, "b")
  {
    var t, answer := ThreeProblems(), Answer(TwoGroups(3, 1, 1, 2));
    ThreeFacts();
    TwoMerges(t, 3, 1, 1, 2, 1);
    TwoMerges(t, 3, 1, 1, 2, 2);
    OnlyThreeStays(answer.groups, ids, byId);
    OwnCarried(t, answer, ids, byId, 1, 3, Files, "a");
    OwnCarried(t, answer, ids, byId, 2, 3, Files, "b");
    assert "b" in Values(Get(t[2], Files));
  }

  /** In the other order 3 ends up with both files. */
  lemma {:induction false} ChainInRightOrderKeeps(ids: seq<int>, byId: Table)
    requires Outcome(ThreeProblems(), Enforce(Answer(TwoGroups(1, 2, 3, 1)), ThreeProblems()), ids, byId)
    ensures ids == [3]
    ensures Carried(ids, byId, Files, "a") && Carried(ids, byId, Files, "b")
  {
    var t, answer := ThreeProblems(), Answer(TwoGroups(1, 2, 3, 1));
    ThreeFacts();
    TwoMerges(t, 1, 2, 3, 1, 1);
    TwoMerges(t, 1, 2, 3, 1, 2);
    OnlyThreeStays(answer.groups, ids, byId);
    OwnCarried(t, answer, ids, byId, 1, 3, Files, "a");
    OwnCarried(t, answer, ids, byId, 2, 3, Files, "b");
  }
}
