/**
 From classification entries to validation groups: omitted files get a fallback entry, entries
 are merged by key, and every group receives the parsed changes of its files.
 */
module ValidationGroups {
  import opened Sorting
  import opened Text
  import opened Basics

  /** One step of the validation sequence. */
  datatype Step = Step(order: Option<int>, validationCmd: string, installationCmd: string, validates: string)

  /** Files filed under one group key. */
  datatype Part = Part(key: string, files: seq<string>)

  /** A classification entry: one part if it has a single failure type, else its sub-problems. */
  datatype Entry = Entry(order: Option<int>, cmd: string, multiple: bool, whole: Part, parts: seq<Part>)

  /** A parsed change, and one tagged with its file. */
  datatype Tagged = Tagged(file: string, change: int)

  function EffectiveCmd(s: Step): string {
    Strip(if s.validationCmd != "" then s.validationCmd
          else if s.installationCmd != "" then s.installationCmd
          else s.validates)
  }

  // ---------- Fallback for omitted files ----------

  /** Some entry lists f; blank names do not count. */
  predicate Mentioned(entries: seq<Entry>, f: string) {
    f != "" && exists i :: 0 <= i < |entries| && f in entries[i].whole.files
  }

  /** The group key of a fallback entry is a fixed text; which one does not matter here. */
  function Fallback(step: Step, f: string): Entry {
    Entry(step.order, EffectiveCmd(step), false, Part("fallback", [f]), [])
  }

  /** An entry of its own for each of some files, in order. */
  function Fallbacks(step: Step, files: seq<string>): seq<Entry> {
    seq(|files|, i requires 0 <= i < |files| => Fallback(step, files[i]))
  }

  /** The files that no entry mentions, in order. */
  function Missing(valid: seq<Entry>, actual: seq<string>): (r: seq<string>)
    ensures forall f :: f in r <==> f in actual && !Mentioned(valid, f)
  {
    if actual == [] then [] else
      var f := actual[|actual| - 1];
      Missing(valid, actual[..|actual| - 1]) + if Mentioned(valid, f) then [] else [f]
  }

  /** Entries keep their place; every omitted file, and no other, gets an entry of its own. */
  method AddMissingFallbacks(valid: seq<Entry>, actual: seq<string>, steps: seq<Step>) returns (entries: seq<Entry>)
    ensures entries == if steps == [] then valid else valid + Fallbacks(steps[0], Missing(valid, actual))
  {
    entries := valid;
    if steps == [] {
      return;
    }
    var classified := set i, f | 0 <= i < |valid| && f in valid[i].whole.files && f != "" :: f;
    for n := 0 to |actual|
      invariant entries == valid + Fallbacks(steps[0], Missing(valid, actual[..n]))
    {
      var f := actual[n];
      TakeNext(actual, n);
      assert f in classified <==> Mentioned(valid, f);
      if f !in classified {
        FallbacksGrow(steps[0], Missing(valid, actual[..n]), f);
        entries := entries + [Fallback(steps[0], f)];
      }
    }
    TakeAll(actual);
  }

  lemma {:induction false} FallbacksGrow(step: Step, files: seq<string>, f: string)
    ensures Fallbacks(step, files + [f]) == Fallbacks(step, files) + [Fallback(step, f)]
  {
  }

  // ---------- Merging by key ----------

  const UNKNOWN := "unknown"

  /** The command that the sequence lists for an order: the last step with it wins. */
  function CmdForOrder(steps: seq<Step>, order: int): string {
    if steps == [] then ""
    else
      var last := steps[|steps| - 1];
      if last.order == Some(order) then Strip(last.validationCmd) else CmdForOrder(steps[..|steps| - 1], order)
  }

  function ResolvedCmd(steps: seq<Step>, e: Entry): string {
    if (e.cmd == "" || e.cmd == UNKNOWN) && e.order.Some? then CmdForOrder(steps, e.order.value) else e.cmd
  }

  /** Entries without an order or a command are skipped. */
  predicate Resolves(steps: seq<Step>, e: Entry) {
    e.order.Some? && ResolvedCmd(steps, e) != "" && ResolvedCmd(steps, e) != UNKNOWN
  }

  function PartsOf(steps: seq<Step>, e: Entry): seq<Part> {
    if !Resolves(steps, e) then [] else if e.multiple then e.parts else [e.whole]
  }

  function FilesInParts(parts: seq<Part>, key: string): seq<string> {
    if parts == [] then [] else
      var last := parts[|parts| - 1];
      FilesInParts(parts[..|parts| - 1], key) + if last.key == key then last.files else []
  }

  /** All files that the entries put into group key, in order, repeats included. */
  function GroupFiles(steps: seq<Step>, entries: seq<Entry>, key: string): seq<string> {
    if entries == [] then [] else
      GroupFiles(steps, entries[..|entries| - 1], key) + FilesInParts(PartsOf(steps, entries[|entries| - 1]), key)
  }

  function FilesAt(groups: map<string, seq<string>>, key: string): seq<string> {
    if key in groups then groups[key] else []
  }

  lemma {:induction false} PutFiles(groups: map<string, seq<string>>, p: Part, k: string)
    ensures FilesAt(groups[p.key := FilesAt(groups, p.key) + p.files], k) ==
            FilesAt(groups, k) + FilesInParts([p], k)
  {
    assert [p][..0] == [];
    JoinEmpty(p.files);
    JoinEmpty(FilesAt(groups, k));
  }

  lemma {:induction false} PartsNext(parts: seq<Part>, i: nat, k: string)
    requires i < |parts|
    ensures FilesInParts(parts[..i + 1], k) == FilesInParts(parts[..i], k) + FilesInParts([parts[i]], k)
  {
    assert parts[..i + 1][..i] == parts[..i] && [parts[i]][..0] == [];
  }

  /** groups' is groups with the files of the parts added under their keys. */
  ghost predicate Extends(groups: map<string, seq<string>>, parts: seq<Part>, groups': map<string, seq<string>>) {
    forall k :: FilesAt(groups', k) == FilesAt(groups, k) + FilesInParts(parts, k)
  }

  lemma {:induction false} ExtendsNext(groups: map<string, seq<string>>, parts: seq<Part>, i: nat, before: map<string,
                                       seq<string>>)
    requires i < |parts| && Extends(groups, parts[..i], before)
    ensures Extends(groups, parts[..i + 1], before[parts[i].key := FilesAt(before, parts[i].key) + parts[i].files])
  {
    var after := before[parts[i].key := FilesAt(before, parts[i].key) + parts[i].files];
    forall k ensures FilesAt(after, k) == FilesAt(groups, k) + FilesInParts(parts[..i + 1], k) {
      PutFiles(before, parts[i], k);
      PartsNext(parts, i, k);
      JoinAssociates(FilesAt(groups, k), FilesInParts(parts[..i], k), FilesInParts([parts[i]], k));
    }
  }

  ghost predicate Lists(keys: seq<string>, groups: map<string, seq<string>>) {
    forall k :: k in keys <==> k in groups
  }

  method MergeEntry(keys: seq<string>, groups: map<string, seq<string>>, parts: seq<Part>)
    returns (keys': seq<string>, groups': map<string, seq<string>>)
    requires Lists(keys, groups)
    ensures Lists(keys', groups') && Extends(groups, parts, groups')
  {
    keys', groups' := keys, groups;
    for i := 0 to |parts|
      invariant Lists(keys', groups') && Extends(groups, parts[..i], groups')
    {
      ExtendsNext(groups, parts, i, groups');
      if parts[i].key !in groups' {
        keys' := keys' + [parts[i].key];
      }
      groups' := groups'[parts[i].key := FilesAt(groups', parts[i].key) + parts[i].files];
    }
    TakeAll(parts);
  }

  method MergeByKey(entries: seq<Entry>, steps: seq<Step>) returns (keys: seq<string>, groups: map<string, seq<string>>)
    ensures Lists(keys, groups)
    ensures forall k :: FilesAt(groups, k) == GroupFiles(steps, entries, k)
  {
    keys, groups := [], map[];
    for n := 0 to |entries|
      invariant Lists(keys, groups)
      invariant forall k :: FilesAt(groups, k) == GroupFiles(steps, entries[..n], k)
    {
      TakeNext(entries, n);
      keys, groups := MergeEntry(keys, groups, PartsOf(steps, entries[n]));
    }
    TakeAll(entries);
  }

  // ---------- Attaching changes ----------

  /** Parsed changes by file, as the structured chunks list them. */
  type Lookup = map<string, seq<int>>

  function Tag(f: string, changes: seq<int>): seq<Tagged> {
    seq(|changes|, i requires 0 <= i < |changes| => Tagged(f, changes[i]))
  }

  function Attached(lookup: Lookup, files: seq<string>): seq<Tagged> {
    if files == [] then [] else
      var f := files[|files| - 1];
      Attached(lookup, files[..|files| - 1]) + if f in lookup then Tag(f, lookup[f]) else []
  }

  method Attach(lookup: Lookup, files: seq<string>) returns (changes: seq<Tagged>)
    ensures changes == Attached(lookup, files)
  {
    changes := [];
    for i := 0 to |files|
      invariant changes == Attached(lookup, files[..i])
    {
      TakeNext(files, i);
      if files[i] in lookup {
        changes := changes + Tag(files[i], lookup[files[i]]);
      }
    }
    TakeAll(files);
  }

  method AttachAll(lookup: Lookup, keys: seq<string>, groups: map<string, seq<string>>)
    returns (changes: map<string, seq<Tagged>>)
    requires Lists(keys, groups)
    ensures changes.Keys == groups.Keys
    ensures forall k :: k in groups ==> changes[k] == Attached(lookup, groups[k])
  {
    changes := map[];
    for i := 0 to |keys|
      invariant forall k :: k in changes <==> k in keys[..i]
      invariant forall k :: k in changes ==> k in groups && changes[k] == Attached(lookup, groups[k])
    {
      assert keys[i] in keys;
      var attached := Attach(lookup, groups[keys[i]]);
      TakeNext(keys, i);
      changes := changes[keys[i] := attached];
    }
    TakeAll(keys);
  }

  /** A file and its changes as the diff parser delivers them; a file may come in several chunks. */
  datatype Parsed = Parsed(path: string, changes: seq<int>)

  function ChangesOf(parsed: seq<Parsed>, f: string): seq<int> {
    if parsed == [] then [] else
      var last := parsed[|parsed| - 1];
      ChangesOf(parsed[..|parsed| - 1], f) + if last.path == f then last.changes else []
  }

  function ChangesAt(lookup: Lookup, f: string): seq<int> {
    if f in lookup then lookup[f] else []
  }

  lemma {:induction false} ParsedNext(parsed: seq<Parsed>, n: nat, f: string)
    requires n < |parsed|
    ensures ChangesOf(parsed[..n + 1], f) ==
            ChangesOf(parsed[..n], f) + if parsed[n].path == f then parsed[n].changes else []
  {
    TakeNext(parsed, n);
  }

  /** The lookup of changes; records without a path are skipped. */
  ghost predicate Looks(lookup: Lookup, parsed: seq<Parsed>, n: nat)
    requires n <= |parsed|
  {
    && (forall f :: f != "" ==> ChangesAt(lookup, f) == ChangesOf(parsed[..n], f))
    && (forall i :: 0 <= i < n && parsed[i].path != "" ==> parsed[i].path in lookup)
  }

  lemma {:induction false} LooksNext(lookup: Lookup, parsed: seq<Parsed>, n: nat, lookup': Lookup)
    requires n < |parsed| && Looks(lookup, parsed, n)
    requires var p := parsed[n];
             lookup' == if p.path == "" then lookup else lookup[p.path := ChangesAt(lookup, p.path) + p.changes]
    ensures Looks(lookup', parsed, n + 1)
  {
    forall f | f != "" ensures ChangesAt(lookup', f) == ChangesOf(parsed[..n + 1], f) {
      ParsedNext(parsed, n, f);
    }
  }

  method BuildLookup(parsed: seq<Parsed>) returns (lookup: Lookup)
    ensures Looks(lookup, parsed, |parsed|)
  {
    lookup := map[];
    for n := 0 to |parsed|
      invariant Looks(lookup, parsed, n)
    {
      var p := parsed[n];
      ghost var before := lookup;
      if p.path != "" {
        lookup := lookup[p.path := ChangesAt(lookup, p.path) + p.changes];
      }
      LooksNext(before, parsed, n, lookup);
    }
  }

  // ---------- Coverage ----------

  lemma {:induction false} AttachedHolds(lookup: Lookup, files: seq<string>, f: string, c: int)
    ensures f in files && f in lookup ==> multiset(Attached(lookup, files))[Tagged(f, c)] >= multiset(lookup[f])[c]
    ensures f !in files ==> multiset(Attached(lookup, files))[Tagged(f, c)] == 0
  {
    if files != [] {
      var n := |files| - 1;
      AttachedHolds(lookup, files[..n], f, c);
      if files[n] in lookup {
        TagCounts(files[n], lookup[files[n]], f, c);
      }
      assert f in files <==> f in files[..n] || f == files[n];
    }
  }

  lemma {:induction false} TagCounts(g: string, changes: seq<int>, f: string, c: int)
    ensures multiset(Tag(g, changes))[Tagged(f, c)] == if f == g then multiset(changes)[c] else 0
  {
    if changes != [] {
      var n := |changes| - 1;
      TagCounts(g, changes[..n], f, c);
      assert Tag(g, changes) == Tag(g, changes[..n]) + [Tagged(g, changes[n])];
      assert changes == changes[..n] + [changes[n]];
    }
  }

  lemma {:induction false} InParts(parts: seq<Part>, i: nat, f: string)
    requires i < |parts| && f in parts[i].files
    ensures f in FilesInParts(parts, parts[i].key)
  {
    var n := |parts| - 1;
    if i < n {
      InParts(parts[..n], i, f);
    }
  }

  lemma {:induction false} InGroup(steps: seq<Step>, entries: seq<Entry>, i: nat, f: string, key: string)
    requires i < |entries| && f in FilesInParts(PartsOf(steps, entries[i]), key)
    ensures f in GroupFiles(steps, entries, key)
  {
    var n := |entries| - 1;
    if i < n {
      InGroup(steps, entries[..n], i, f, key);
    }
  }

  /** Entry e resolves and lists f in a part that counts. */
  ghost predicate Files(steps: seq<Step>, e: Entry, f: string) {
    exists j :: 0 <= j < |PartsOf(steps, e)| && f in PartsOf(steps, e)[j].files
  }

  ghost predicate Filed(steps: seq<Step>, entries: seq<Entry>, f: string) {
    exists i :: 0 <= i < |entries| && Files(steps, entries[i], f)
  }

  /** A file is in some group exactly when some entry files it. */
  lemma {:induction false} InSomeGroupIff(steps: seq<Step>, entries: seq<Entry>, f: string)
    ensures (exists k :: f in GroupFiles(steps, entries, k)) <==> Filed(steps, entries, f)
  {
    if Filed(steps, entries, f) {
      var i :| 0 <= i < |entries| && Files(steps, entries[i], f);
      var parts := PartsOf(steps, entries[i]);
      var j :| 0 <= j < |parts| && f in parts[j].files;
      InParts(parts, j, f);
      InGroup(steps, entries, i, f, parts[j].key);
    }
    if k :| f in GroupFiles(steps, entries, k) {
      var i, j := WhereFrom(steps, entries, k, f);
      assert Files(steps, entries[i], f);
    }
  }

  lemma {:induction false} WhereFrom(steps: seq<Step>, entries: seq<Entry>, k: string, f: string)
    returns (i: nat, j: nat)
    requires f in GroupFiles(steps, entries, k)
    ensures i < |entries| && j < |PartsOf(steps, entries[i])| && f in PartsOf(steps, entries[i])[j].files
  {
    var n := |entries| - 1;
    if f in GroupFiles(steps, entries[..n], k) {
      i, j := WhereFrom(steps, entries[..n], k, f);
    } else {
      i := n;
      j := WhichPart(PartsOf(steps, entries[n]), k, f);
    }
  }

  lemma {:induction false} WhichPart(parts: seq<Part>, k: string, f: string) returns (j: nat)
    requires f in FilesInParts(parts, k)
    ensures j < |parts| && f in parts[j].files
  {
    var n := |parts| - 1;
    if f in FilesInParts(parts[..n], k) {
      j := WhichPart(parts[..n], k, f);
    } else {
      j := n;
    }
  }

  /** A group holds f with all the changes parsed for it, in whatever record they came. */
  ghost predicate Reaches(parsed: seq<Parsed>, files: seq<string>, changes: seq<Tagged>, f: string) {
    && f in files
    && (forall c :: multiset(changes)[Tagged(f, c)] >= multiset(ChangesOf(parsed, f))[c])
    && (forall i, c :: 0 <= i < |parsed| && parsed[i].path == f && c in parsed[i].changes ==> Tagged(f, c) in changes)
  }

  /** The changes of a file over two lists of records, one after the other. */
  lemma {:induction false} ChangesJoin(a: seq<Parsed>, b: seq<Parsed>, f: string)
    ensures ChangesOf(a + b, f) == ChangesOf(a, f) + ChangesOf(b, f)
    ensures |b| == 1 && b[0].path == f ==> ChangesOf(b, f) == b[0].changes
    decreases |b|
  {
    if b == [] {
      JoinEmpty(a);
      JoinEmpty(ChangesOf(a, f));
    } else {
      var c, last := b[..|b| - 1], b[|b| - 1];
      assert (a + b)[..|a| + |c|] == a + c && (a + b)[|a| + |c|] == last;
      ChangesJoin(a, c, f);
      JoinAssociates(ChangesOf(a, f), ChangesOf(c, f), if last.path == f then last.changes else []);
      JoinEmpty(if last.path == f then last.changes else []);
    }
  }

  lemma {:induction false} InChangesOf(parsed: seq<Parsed>, f: string, i: nat, c: int)
    requires i < |parsed| && parsed[i].path == f && c in parsed[i].changes
    ensures c in ChangesOf(parsed, f)
    decreases |parsed|
  {
    var n := |parsed| - 1;
    if i < n {
      assert parsed[..n][i] == parsed[i];
      InChangesOf(parsed[..n], f, i, c);
    }
  }

  /** Some group holds f with all the changes parsed for it. */
  ghost predicate ReachesSome(parsed: seq<Parsed>, groups: map<string, seq<string>>,
                              changes: map<string, seq<Tagged>>, f: string) {
    exists k :: k in groups && k in changes && Reaches(parsed, groups[k], changes[k], f)
  }

  ghost predicate Usable(cmd: string) {
    cmd != "" && cmd != "unknown"
  }

  /** Step i is the last one with order n. */
  ghost predicate IsLastWith(steps: seq<Step>, n: int, i: int) {
    0 <= i < |steps| && steps[i].order == Some(n) && forall j :: i < j < |steps| ==> steps[j].order != Some(n)
  }

  /** The last step with order n has a usable command. */
  ghost predicate StepHasCommand(steps: seq<Step>, n: int) {
    exists i :: IsLastWith(steps, n, i) && Usable(Strip(steps[i].validationCmd))
  }

  /** Entry e has an order, a command of its own or from its step, and lists f in a part that counts. */
  ghost predicate EntryCounts(steps: seq<Step>, e: Entry, f: string) {
    && e.order.Some? && (Usable(e.cmd) || StepHasCommand(steps, e.order.value))
    && if e.multiple then exists j :: 0 <= j < |e.parts| && f in e.parts[j].files else f in e.whole.files
  }

  /** The first step can take omitted files: it has an order, and a command of its own or from its order. */
  ghost predicate TakesOmitted(steps: seq<Step>) {
    && steps != [] && steps[0].order.Some?
    && (|| Usable(Strip(if steps[0].validationCmd != "" then steps[0].validationCmd
                        else if steps[0].installationCmd != "" then steps[0].installationCmd
                        else steps[0].validates))
        || StepHasCommand(steps, steps[0].order.value))
  }

  /** An entry of the classification counts for f, or none mentions it and the first step takes it. */
  ghost predicate Covered(valid: seq<Entry>, steps: seq<Step>, f: string) {
    || (exists i :: 0 <= i < |valid| && EntryCounts(steps, valid[i], f))
    || ((forall i :: 0 <= i < |valid| ==> f !in valid[i].whole.files) && TakesOmitted(steps))
  }

  /** The command for an order is that of the last step with it, or nothing. */
  lemma {:induction false} CmdForOrderIs(steps: seq<Step>, n: int)
    ensures forall i :: IsLastWith(steps, n, i) ==> CmdForOrder(steps, n) == Strip(steps[i].validationCmd)
    ensures (forall i :: 0 <= i < |steps| ==> steps[i].order != Some(n)) ==> CmdForOrder(steps, n) == ""
    ensures CmdForOrder(steps, n) != "" ==> exists i :: IsLastWith(steps, n, i)
  {
    if steps != [] {
      var m := |steps| - 1;
      if steps[m].order == Some(n) {
        assert IsLastWith(steps, n, m);
        forall i | IsLastWith(steps, n, i) ensures i == m {
        }
      } else {
        CmdForOrderIs(steps[..m], n);
        forall i ensures IsLastWith(steps, n, i) <==> IsLastWith(steps[..m], n, i) {
          LastBefore(steps, n, i);
        }
      }
    }
  }

  lemma {:induction false} LastBefore(steps: seq<Step>, n: int, i: int)
    requires steps != [] && steps[|steps| - 1].order != Some(n)
    ensures IsLastWith(steps, n, i) <==> IsLastWith(steps[..|steps| - 1], n, i)
  {
    var before := steps[..|steps| - 1];
    assert forall j :: 0 <= j < |before| ==> before[j] == steps[j];
  }

  lemma {:induction false} ResolvesIs(steps: seq<Step>, e: Entry)
    ensures Resolves(steps, e) <==> e.order.Some? && (Usable(e.cmd) || StepHasCommand(steps, e.order.value))
  {
    if e.order.Some? {
      CmdForOrderIs(steps, e.order.value);
    }
  }

  lemma {:induction false} FilesIff(steps: seq<Step>, e: Entry, f: string)
    ensures Files(steps, e, f) <==> EntryCounts(steps, e, f)
  {
    ResolvesIs(steps, e);
    if Resolves(steps, e) {
      assert PartsOf(steps, e) == if e.multiple then e.parts else [e.whole];
      assert !e.multiple ==> PartsOf(steps, e)[0] == e.whole;
    }
  }

  lemma {:induction false} CoveredIff(valid: seq<Entry>, steps: seq<Step>, f: string)
    requires f != ""
    ensures Covered(valid, steps, f) <==>
            || Filed(steps, valid, f)
            || (!Mentioned(valid, f) && steps != [] && Resolves(steps, Fallback(steps[0], f)))
  {
    forall i | 0 <= i < |valid| ensures Files(steps, valid[i], f) <==> EntryCounts(steps, valid[i], f) {
      FilesIff(steps, valid[i], f);
    }
    if steps != [] {
      ResolvesIs(steps, Fallback(steps[0], f));
    }
  }

  /** A chunk whose classification succeeded: exactly the covered files reach a group, with all their changes. */
  method GroupChunk(valid: seq<Entry>, actual: seq<string>, steps: seq<Step>, parsed: seq<Parsed>)
    returns (entries: seq<Entry>, groups: map<string, seq<string>>, changes: map<string, seq<Tagged>>)
    ensures entries == if steps == [] then valid else valid + Fallbacks(steps[0], Missing(valid, actual))
    ensures changes.Keys == groups.Keys
    ensures forall k :: k in groups ==> groups[k] == GroupFiles(steps, entries, k)
    ensures forall f :: f in actual && f != "" ==>
                          (ReachesSome(parsed, groups, changes, f) <==> Covered(valid, steps, f))
  {
    entries := AddMissingFallbacks(valid, actual, steps);
    var keys;
    keys, groups := MergeByKey(entries, steps);
    var lookup := BuildLookup(parsed);
    TakeAll(parsed);
    changes := AttachAll(lookup, keys, groups);
    forall k ensures k in groups ==> groups[k] == GroupFiles(steps, entries, k) {
      assert FilesAt(groups, k) == GroupFiles(steps, entries, k);
    }
    forall f | f in actual && f != "" ensures ReachesSome(parsed, groups, changes, f) <==> Covered(valid, steps, f) {
      ReachesIffFiled(steps, entries, parsed, lookup, groups, changes, f);
      FiledIffCovered(valid, actual, steps, f);
    }
  }

  lemma {:induction false} ReachesIffFiled(steps: seq<Step>, entries: seq<Entry>, parsed: seq<Parsed>, lookup: Lookup,
                        groups: map<string, seq<string>>, changes: map<string, seq<Tagged>>, f: string)
    requires forall k :: FilesAt(groups, k) == GroupFiles(steps, entries, k)
    requires changes.Keys == groups.Keys && forall k :: k in groups ==> changes[k] == Attached(lookup, groups[k])
    requires ChangesAt(lookup, f) == ChangesOf(parsed, f)
    ensures ReachesSome(parsed, groups, changes, f) <==> Filed(steps, entries, f)
  {
    InSomeGroupIff(steps, entries, f);
    if Filed(steps, entries, f) {
      var k :| f in GroupFiles(steps, entries, k);
      assert f in FilesAt(groups, k);
      forall c ensures multiset(changes[k])[Tagged(f, c)] >= multiset(ChangesOf(parsed, f))[c] {
        AttachedHolds(lookup, groups[k], f, c);
      }
      forall i, c | 0 <= i < |parsed| && parsed[i].path == f && c in parsed[i].changes
        ensures Tagged(f, c) in changes[k]
      {
        InChangesOf(parsed, f, i, c);
        assert multiset(ChangesOf(parsed, f))[c] > 0;
        assert multiset(changes[k])[Tagged(f, c)] > 0;
      }
      assert Reaches(parsed, groups[k], changes[k], f);
    }
    if ReachesSome(parsed, groups, changes, f) {
      var k :| k in groups && k in changes && Reaches(parsed, groups[k], changes[k], f);
      assert FilesAt(groups, k) == GroupFiles(steps, entries, k);
    }
  }

  lemma {:induction false} FiledIffCovered(valid: seq<Entry>, actual: seq<string>, steps: seq<Step>, f: string)
    requires f in actual && f != ""
    ensures var entries := if steps == [] then valid else valid + Fallbacks(steps[0], Missing(valid, actual));
            Filed(steps, entries, f) <==> Covered(valid, steps, f)
  {
    CoveredIff(valid, steps, f);
    if steps != [] {
      FiledJoin(steps, valid, Fallbacks(steps[0], Missing(valid, actual)), f);
      FiledFallbacks(steps, steps[0], Missing(valid, actual), f);
    }
  }

  lemma {:induction false} FiledJoin(steps: seq<Step>, a: seq<Entry>, b: seq<Entry>, f: string)
    ensures Filed(steps, a + b, f) <==> Filed(steps, a, f) || Filed(steps, b, f)
  {
    var all := a + b;
    if Filed(steps, a, f) {
      var i :| 0 <= i < |a| && Files(steps, a[i], f);
      assert all[i] == a[i];
    }
    if Filed(steps, b, f) {
      var i :| 0 <= i < |b| && Files(steps, b[i], f);
      assert all[|a| + i] == b[i];
    }
    if Filed(steps, all, f) {
      var i :| 0 <= i < |all| && Files(steps, all[i], f);
      assert all[i] == if i < |a| then a[i] else b[i - |a|];
    }
  }

  lemma {:induction false} FiledFallbacks(steps: seq<Step>, step: Step, missing: seq<string>, f: string)
    ensures Filed(steps, Fallbacks(step, missing), f) <==> f in missing && Resolves(steps, Fallback(step, f))
  {
    var entries := Fallbacks(step, missing);
    forall i | 0 <= i < |entries|
      ensures Files(steps, entries[i], f) <==> missing[i] == f && Resolves(steps, Fallback(step, f))
    {
      var parts := PartsOf(steps, entries[i]);
      if missing[i] == f && Resolves(steps, Fallback(step, f)) {
        assert parts[0] == entries[i].whole && f in parts[0].files;
      }
    }
    if f in missing && Resolves(steps, Fallback(step, f)) {
      var i :| 0 <= i < |missing| && missing[i] == f;
      assert Files(steps, entries[i], f);
    }
  }

  /** If every entry has one failure type, an order and a command, and the first step takes omitted files, all do. */
  lemma {:induction false} AllCovered(valid: seq<Entry>, steps: seq<Step>, f: string)
    requires TakesOmitted(steps)
    requires forall i :: 0 <= i < |valid| ==> !valid[i].multiple && valid[i].order.Some? && Usable(valid[i].cmd)
    ensures Covered(valid, steps, f)
  {
    if i :| 0 <= i < |valid| && f in valid[i].whole.files {
      assert EntryCounts(steps, valid[i], f);
    }
  }
}
