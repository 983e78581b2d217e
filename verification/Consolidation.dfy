/**
 Consolidating chunk-level problem events: one record per validation, failure and issue key,
 files and texts collected without repeats, records in key order.
 */
module Consolidation {
  import opened Basics
  import opened Sorting

  // ---------- Keys and their order ----------

  datatype EventKey = EventKey(order: int, cmd: string, failure: string, issue: string, fixed: bool, introduced: bool)

  /** Python compares strings by code point, and a prefix comes first. */
  predicate TextLess(a: string, b: string) {
    if b == "" then false
    else if a == "" then true
    else a[0] < b[0] || (a[0] == b[0] && TextLess(a[1..], b[1..]))
  }

  lemma {:induction false} TextTotal(a: string, b: string)
    ensures a == b || TextLess(a, b) || TextLess(b, a)
    ensures !TextLess(a, a)
    ensures !(TextLess(a, b) && TextLess(b, a))
    decreases |a|
  {
    if a != "" {
      TextTotal(a[1..], a[1..]);
      if b != "" && a[0] == b[0] {
        TextTotal(a[1..], b[1..]);
        assert a == [a[0]] + a[1..] && b == [b[0]] + b[1..];
      }
    }
  }

  lemma {:induction false} TextTransitive(a: string, b: string, c: string)
    requires TextLess(a, b) && TextLess(b, c)
    ensures TextLess(a, c)
  {
    if a != "" && a[0] == b[0] && b[0] == c[0] {
      TextTransitive(a[1..], b[1..], c[1..]);
    }
  }

  function Rank(b: bool): int {
    if b then 1 else 0
  }

  /** Tuple comparison: order, command, failure type, issue type, then the two flags. */
  predicate KeyLess(x: EventKey, y: EventKey) {
    if x.order != y.order then x.order < y.order
    else if x.cmd != y.cmd then TextLess(x.cmd, y.cmd)
    else if x.failure != y.failure then TextLess(x.failure, y.failure)
    else if x.issue != y.issue then TextLess(x.issue, y.issue)
    else if x.fixed != y.fixed then Rank(x.fixed) < Rank(y.fixed)
    else Rank(x.introduced) < Rank(y.introduced)
  }

  lemma {:induction false} KeyTotal(x: EventKey, y: EventKey)
    ensures x == y || KeyLess(x, y) || KeyLess(y, x)
    ensures !KeyLess(x, x) && !(KeyLess(x, y) && KeyLess(y, x))
  {
    TextTotal(x.cmd, y.cmd);
    TextTotal(x.failure, y.failure);
    TextTotal(x.issue, y.issue);
  }

  lemma {:induction false} KeyTransitive(x: EventKey, y: EventKey, z: EventKey)
    requires KeyLess(x, y) && KeyLess(y, z)
    ensures KeyLess(x, z)
  {
    KeyTotal(x, y);
    KeyTotal(y, z);
    if TextLess(x.cmd, y.cmd) && TextLess(y.cmd, z.cmd) { TextTransitive(x.cmd, y.cmd, z.cmd); }
    if TextLess(x.failure, y.failure) && TextLess(y.failure, z.failure) {
      TextTransitive(x.failure, y.failure, z.failure);
    }
    if TextLess(x.issue, y.issue) && TextLess(y.issue, z.issue) { TextTransitive(x.issue, y.issue, z.issue); }
    TextTotal(x.cmd, z.cmd);
    TextTotal(x.failure, z.failure);
    TextTotal(x.issue, z.issue);
    TextTotal(y.cmd, z.cmd);
    TextTotal(y.failure, z.failure);
    TextTotal(y.issue, z.issue);
  }

  // ---------- Events and records ----------

  datatype TextField = ProblemText | RootCause | ChangesMade | FixStrategy | WhyWorks | Repair

  const FIELDS := {ProblemText, RootCause, ChangesMade, FixStrategy, WhyWorks, Repair}

  /** These texts are kept only for events that were fixed. */
  predicate OnlyIfFixed(f: TextField) {
    f.FixStrategy? || f.WhyWorks? || f.Repair?
  }

  datatype Event = Event(cmd: string, failure: string, issue: string, fixed: bool, introduced: bool,
                         files: seq<string>, texts: map<TextField, string>)

  /** Position of a command in the validation sequence. */
  type Orders = map<string, int>

  const UNKNOWN_ORDER := 9999

  function KeyOf(orders: Orders, e: Event): EventKey {
    EventKey(if e.cmd in orders then orders[e.cmd] else UNKNOWN_ORDER, e.cmd, e.failure, e.issue, e.fixed, e.introduced)
  }

  function TextOf(e: Event, f: TextField): string {
    if f in e.texts then e.texts[f] else ""
  }

  function AddNew(acc: seq<string>, x: string): seq<string> {
    if x in acc then acc else acc + [x]
  }

  function AddAll(acc: seq<string>, xs: seq<string>): seq<string> {
    if xs == [] then acc else AddNew(AddAll(acc, xs[..|xs| - 1]), xs[|xs| - 1])
  }

  /** Files of the events with key k, in order of first appearance. */
  function FilesFor(orders: Orders, events: seq<Event>, k: EventKey): seq<string> {
    if events == [] then [] else
      var e, before := events[|events| - 1], FilesFor(orders, events[..|events| - 1], k);
      if KeyOf(orders, e) == k then AddAll(before, e.files) else before
  }

  /** Non-empty texts of one field of the events with key k, in order of first appearance. */
  function TextsFor(orders: Orders, events: seq<Event>, k: EventKey, f: TextField): seq<string> {
    if events == [] then [] else
      var e, before := events[|events| - 1], TextsFor(orders, events[..|events| - 1], k, f);
      if KeyOf(orders, e) == k && TextOf(e, f) != "" then AddNew(before, TextOf(e, f)) else before
  }

  function Joined(values: seq<string>): string {
    if values == [] then "" else if |values| == 1 then values[0] else values[0] + "\n\n" + Joined(values[1..])
  }

  function RecordFor(orders: Orders, events: seq<Event>, k: EventKey): Event {
    Event(k.cmd, k.failure, k.issue, k.fixed, k.introduced, FilesFor(orders, events, k),
          map f | f in FIELDS ::
            if OnlyIfFixed(f) && !k.fixed then "" else Joined(TextsFor(orders, events, k, f)))
  }

  // ---------- Sorting keys ----------

  ghost predicate Rising(keys: seq<EventKey>) {
    forall i, j :: 0 <= i < j < |keys| ==> KeyLess(keys[i], keys[j])
  }

  function InsertKey(k: EventKey, keys: seq<EventKey>): seq<EventKey> {
    if keys == [] || KeyLess(k, keys[0]) then [k] + keys else [keys[0]] + InsertKey(k, keys[1..])
  }

  function SortKeys(keys: seq<EventKey>): seq<EventKey> {
    if keys == [] then [] else InsertKey(keys[0], SortKeys(keys[1..]))
  }

  lemma {:induction false} InsertRises(k: EventKey, keys: seq<EventKey>)
    requires Rising(keys) && k !in keys
    ensures Rising(InsertKey(k, keys))
    ensures forall x :: x in InsertKey(k, keys) <==> x == k || x in keys
  {
    if keys != [] {
      KeyTotal(k, keys[0]);
      if KeyLess(k, keys[0]) {
        forall j | 0 <= j < |keys| ensures KeyLess(k, keys[j]) {
          if j > 0 { KeyTransitive(k, keys[0], keys[j]); }
        }
      } else {
        InsertRises(k, keys[1..]);
        var t := InsertKey(k, keys[1..]);
        forall j | 0 <= j < |t| ensures KeyLess(keys[0], t[j]) {
          assert t[j] in t;
        }
      }
    }
  }

  lemma {:induction false} SortRises(keys: seq<EventKey>)
    requires Distinct(keys)
    ensures Rising(SortKeys(keys))
    ensures forall x :: x in SortKeys(keys) <==> x in keys
  {
    if keys != [] {
      SortRises(keys[1..]);
      InsertRises(keys[0], SortKeys(keys[1..]));
    }
  }

  lemma {:induction false} SomeMember<T>(s: seq<T>)
    ensures s == [] || exists x :: x in s
  {
    if s != [] {
      assert s[0] in s;
    }
  }

  /** Rising lists with the same keys are the same list. */
  lemma {:induction false} RisingUnique(a: seq<EventKey>, b: seq<EventKey>)
    requires Rising(a) && Rising(b) && forall x :: x in a <==> x in b
    ensures a == b
  {
    SomeMember(b);
    if a != [] {
      assert a[0] in b;
      assert b[0] in a;
      var i :| 0 <= i < |b| && b[i] == a[0];
      var j :| 0 <= j < |a| && a[j] == b[0];
      KeyTotal(a[0], b[0]);
      assert a[0] == b[0];
      forall x ensures x in a[1..] <==> x in b[1..] {
        KeyTotal(a[0], a[0]);
        assert x in a[1..] <==> x in a && x != a[0];
        assert x in b[1..] <==> x in b && x != b[0];
      }
      RisingUnique(a[1..], b[1..]);
    }
  }

  // ---------- The method ----------

  /** The records of events, keys rising, each record collected from the events with its key. */
  ghost predicate IsConsolidation(orders: Orders, events: seq<Event>, keys: seq<EventKey>, records: seq<Event>) {
    && Rising(keys) && |records| == |keys|
    && (forall k :: k in keys <==> HasKey(orders, events, k))
    && forall i :: 0 <= i < |keys| ==> records[i] == RecordFor(orders, events, keys[i])
  }

  ghost predicate HasKey(orders: Orders, events: seq<Event>, k: EventKey) {
    exists i :: 0 <= i < |events| && KeyOf(orders, events[i]) == k
  }

  /** What is gathered for one key while the events are read. */
  datatype Item = Item(files: seq<string>, texts: map<TextField, seq<string>>)

  ghost predicate Gathered(orders: Orders, events: seq<Event>, k: EventKey, item: Item) {
    && item.files == FilesFor(orders, events, k)
    && item.texts.Keys == FIELDS
    && forall f :: f in FIELDS ==> item.texts[f] == TextsFor(orders, events, k, f)
  }

  ghost predicate Grouped(orders: Orders, events: seq<Event>, keys: seq<EventKey>, grouped: map<EventKey, Item>) {
    && Distinct(keys)
    && (forall k :: k in grouped <==> k in keys)
    && (forall k :: k in grouped <==> HasKey(orders, events, k))
    && forall k :: k in grouped ==> Gathered(orders, events, k, grouped[k])
  }

  lemma {:induction false} NoEventNoItem(orders: Orders, events: seq<Event>, k: EventKey)
    requires !HasKey(orders, events, k)
    ensures FilesFor(orders, events, k) == [] && forall f :: TextsFor(orders, events, k, f) == []
  {
    if events != [] {
      var n := |events| - 1;
      assert forall i :: 0 <= i < n ==> events[..n][i] == events[i];
      assert KeyOf(orders, events[n]) != k;
      NoEventNoItem(orders, events[..n], k);
    }
  }

  lemma {:induction false} OneMore(orders: Orders, events: seq<Event>, n: nat, k: EventKey)
    requires n < |events|
    ensures HasKey(orders, events[..n + 1], k) <==> HasKey(orders, events[..n], k) || KeyOf(orders, events[n]) == k
    ensures var e, upTo := events[n], events[..n + 1];
            && FilesFor(orders, upTo, k) ==
               (if KeyOf(orders, e) == k then AddAll(FilesFor(orders, events[..n], k), e.files)
                else FilesFor(orders, events[..n], k))
            && forall f :: TextsFor(orders, upTo, k, f) ==
                 if KeyOf(orders, e) == k && TextOf(e, f) != ""
                 then AddNew(TextsFor(orders, events[..n], k, f), TextOf(e, f))
                 else TextsFor(orders, events[..n], k, f)
  {
    var upTo := events[..n + 1];
    assert upTo[..n] == events[..n];
    if HasKey(orders, events[..n], k) {
      var i :| 0 <= i < n && KeyOf(orders, events[..n][i]) == k;
      assert upTo[i] == events[..n][i];
    }
    assert upTo[n] == events[n];
    if i :| 0 <= i < n + 1 && KeyOf(orders, upTo[i]) == k {
      assert i < n ==> events[..n][i] == upTo[i];
    }
  }

  ghost predicate Folded(item: Item, e: Event, item': Item) {
    && item.texts.Keys == FIELDS && item'.texts.Keys == FIELDS
    && item'.files == AddAll(item.files, e.files)
    && forall f :: f in FIELDS ==>
                     item'.texts[f] == if TextOf(e, f) != "" then AddNew(item.texts[f], TextOf(e, f)) else item.texts[f]
  }

  /** Fold one event into the item of its key. */
  method Collect(item: Item, e: Event) returns (item': Item)
    requires item.texts.Keys == FIELDS
    ensures Folded(item, e, item')
  {
    var files := item.files;
    for i := 0 to |e.files|
      invariant files == AddAll(item.files, e.files[..i])
    {
      TakeNext(e.files, i);
      if e.files[i] !in files {
        files := files + [e.files[i]];
      }
    }
    TakeAll(e.files);
    var texts := map f | f in FIELDS ::
      if TextOf(e, f) != "" then AddNew(item.texts[f], TextOf(e, f)) else item.texts[f];
    item' := Item(files, texts);
  }

  lemma {:induction false} FoldedIsGathered(orders: Orders, events: seq<Event>, n: nat, item: Item, item': Item)
    requires n < |events| && Gathered(orders, events[..n], KeyOf(orders, events[n]), item)
    requires Folded(item, events[n], item')
    ensures Gathered(orders, events[..n + 1], KeyOf(orders, events[n]), item')
  {
    OneMore(orders, events, n, KeyOf(orders, events[n]));
  }

  lemma {:induction false} OthersGathered(orders: Orders, events: seq<Event>, n: nat, k: EventKey, item: Item)
    requires n < |events| && Gathered(orders, events[..n], k, item) && k != KeyOf(orders, events[n])
    ensures Gathered(orders, events[..n + 1], k, item)
  {
    OneMore(orders, events, n, k);
  }

  lemma {:induction false} EmptyItem(orders: Orders, events: seq<Event>, k: EventKey)
    requires !HasKey(orders, events, k)
    ensures Gathered(orders, events, k, Item([], map f | f in FIELDS :: []))
  {
    NoEventNoItem(orders, events, k);
  }

  lemma {:induction false} KeysNext(orders: Orders, events: seq<Event>, n: nat, k: EventKey)
    requires n < |events|
    ensures HasKey(orders, events[..n + 1], k) <==> HasKey(orders, events[..n], k) || k == KeyOf(orders, events[n])
  {
    OneMore(orders, events, n, k);
  }

  lemma {:induction false} GroupedNext(orders: Orders, events: seq<Event>, n: nat, keys: seq<EventKey>,
                                       grouped: map<EventKey, Item>,
                    keys': seq<EventKey>, item: Item)
    requires n < |events| && Grouped(orders, events[..n], keys, grouped)
    requires var k := KeyOf(orders, events[n]);
             && keys' == (if k in grouped then keys else keys + [k])
             && Gathered(orders, events[..n + 1], k, item)
    ensures Grouped(orders, events[..n + 1], keys', grouped[KeyOf(orders, events[n]) := item])
  {
    var k := KeyOf(orders, events[n]);
    var grouped' := grouped[k := item];
    forall x ensures x in grouped' <==> HasKey(orders, events[..n + 1], x) {
      KeysNext(orders, events, n, x);
    }
    forall x | x in grouped' ensures Gathered(orders, events[..n + 1], x, grouped'[x]) {
      if x != k {
        OthersGathered(orders, events, n, x, grouped[x]);
      }
    }
  }

  method GroupEvents(orders: Orders, events: seq<Event>) returns (keys: seq<EventKey>, grouped: map<EventKey, Item>)
    ensures Grouped(orders, events, keys, grouped)
  {
    keys, grouped := [], map[];
    for n := 0 to |events|
      invariant Grouped(orders, events[..n], keys, grouped)
    {
      var k := KeyOf(orders, events[n]);
      var item := Item([], map f | f in FIELDS :: []);
      if k in grouped {
        item := grouped[k];
      } else {
        EmptyItem(orders, events[..n], k);
      }
      var folded := Collect(item, events[n]);
      FoldedIsGathered(orders, events, n, item, folded);
      var keys' := if k in grouped then keys else keys + [k];
      GroupedNext(orders, events, n, keys, grouped, keys', folded);
      keys, grouped := keys', grouped[k := folded];
    }
    TakeAll(events);
  }

  function MakeRecord(k: EventKey, item: Item): Event
    requires item.texts.Keys == FIELDS
  {
    Event(k.cmd, k.failure, k.issue, k.fixed, k.introduced, item.files,
          map f | f in FIELDS :: if OnlyIfFixed(f) && !k.fixed then "" else Joined(item.texts[f]))
  }

  lemma {:induction false} RecordIs(orders: Orders, events: seq<Event>, k: EventKey, item: Item)
    requires Gathered(orders, events, k, item)
    ensures MakeRecord(k, item) == RecordFor(orders, events, k)
  {
  }

  method Consolidate(orders: Orders, events: seq<Event>) returns (keys: seq<EventKey>, records: seq<Event>)
    ensures IsConsolidation(orders, events, keys, records)
    ensures Consolidates(orders, events, records)
  {
    var seen, grouped := GroupEvents(orders, events);
    keys := SortKeys(seen);
    SortRises(seen);
    records := MakeRecords(orders, events, keys, grouped);
    RecordsConsolidate(orders, events, keys, records);
  }

  method MakeRecords(ghost orders: Orders, ghost events: seq<Event>, keys: seq<EventKey>, grouped: map<EventKey, Item>)
    returns (records: seq<Event>)
    requires forall i :: 0 <= i < |keys| ==> keys[i] in grouped && Gathered(orders, events, keys[i], grouped[keys[i]])
    ensures |records| == |keys|
    ensures forall i :: 0 <= i < |keys| ==> records[i] == RecordFor(orders, events, keys[i])
  {
    records := [];
    for i := 0 to |keys|
      invariant |records| == i
      invariant forall j :: 0 <= j < i ==> records[j] == RecordFor(orders, events, keys[j])
    {
      RecordIs(orders, events, keys[i], grouped[keys[i]]);
      records := records + [MakeRecord(keys[i], grouped[keys[i]])];
    }
  }

  // ---------- What it means ----------

  lemma {:induction false} AddAllMembers(acc: seq<string>, xs: seq<string>)
    ensures forall x :: x in AddAll(acc, xs) <==> x in acc || x in xs
    ensures Distinct(acc) ==> Distinct(AddAll(acc, xs))
  {
    if xs != [] {
      var n := |xs| - 1;
      AddAllMembers(acc, xs[..n]);
      assert xs == xs[..n] + [xs[n]];
    }
  }

  lemma {:induction false} AddAllToNothing(xs: seq<string>)
    requires Distinct(xs)
    ensures AddAll([], xs) == xs
  {
    if xs != [] {
      var n := |xs| - 1;
      AddAllToNothing(xs[..n]);
      assert xs == xs[..n] + [xs[n]];
      assert xs[n] !in xs[..n];
    }
  }

  /** A record lists exactly the files of the events with its key, each once. */
  lemma {:induction false} FilesAre(orders: Orders, events: seq<Event>, k: EventKey)
    ensures Distinct(FilesFor(orders, events, k))
    ensures forall x :: x in FilesFor(orders, events, k) <==>
                        exists i :: 0 <= i < |events| && KeyOf(orders, events[i]) == k && x in events[i].files
  {
    if events != [] {
      var n := |events| - 1;
      FilesAre(orders, events[..n], k);
      AddAllMembers(FilesFor(orders, events[..n], k), events[n].files);
      forall x ensures x in FilesFor(orders, events, k) <==>
                       exists i :: 0 <= i < |events| && KeyOf(orders, events[i]) == k && x in events[i].files
      {
        if i :| 0 <= i < n && KeyOf(orders, events[..n][i]) == k && x in events[..n][i].files {
          assert events[i] == events[..n][i];
        }
        if i :| 0 <= i < |events| && KeyOf(orders, events[i]) == k && x in events[i].files {
          assert i < n ==> events[..n][i] == events[i];
        }
      }
    }
  }

  /** Every file of an event is in the record of its key, and the keys of records are rising. */
  lemma {:induction false} FilesReachTheirRecord(orders: Orders, events: seq<Event>, keys: seq<EventKey>,
                                                 records: seq<Event>, i: nat,
                              x: string)
    requires IsConsolidation(orders, events, keys, records)
    requires i < |events| && x in events[i].files
    ensures exists j :: 0 <= j < |records| && keys[j] == KeyOf(orders, events[i]) && x in records[j].files
  {
    var k := KeyOf(orders, events[i]);
    assert HasKey(orders, events, k);
    var j :| 0 <= j < |keys| && keys[j] == k;
    FilesAre(orders, events, k);
  }

  lemma {:induction false} KeyOfRecord(orders: Orders, events: seq<Event>, k: EventKey)
    requires HasKey(orders, events, k)
    ensures KeyOf(orders, RecordFor(orders, events, k)) == k
  {
  }

  /** Among records with rising keys only one has key k, so it alone is collected for k. */
  lemma {:induction false} OnlyRecord(orders: Orders, keys: seq<EventKey>, records: seq<Event>, j: nat, f: TextField)
    requires |keys| == |records| && Rising(keys) && j < |keys|
    requires forall i :: 0 <= i < |keys| ==> KeyOf(orders, records[i]) == keys[i]
    requires Distinct(records[j].files)
    ensures FilesFor(orders, records, keys[j]) == records[j].files
    ensures TextsFor(orders, records, keys[j], f) == if TextOf(records[j], f) != "" then [TextOf(records[j], f)] else []
    decreases |records|
  {
    var n := |records| - 1;
    var k := keys[j];
    if j < n {
      KeyTotal(keys[j], keys[n]);
      OnlyRecord(orders, keys[..n], records[..n], j, f);
    } else {
      assert !HasKey(orders, records[..n], k) by {
        forall i | 0 <= i < n ensures KeyOf(orders, records[..n][i]) != k {
          KeyTotal(keys[i], keys[n]);
        }
      }
      NoEventNoItem(orders, records[..n], k);
      AddAllToNothing(records[n].files);
    }
  }

  /** Consolidating records again changes nothing. */
  lemma {:induction false} Idempotent(orders: Orders, events: seq<Event>, keys: seq<EventKey>, records: seq<Event>,
                   keys': seq<EventKey>, records': seq<Event>)
    requires IsConsolidation(orders, events, keys, records)
    requires IsConsolidation(orders, records, keys', records')
    ensures keys' == keys && records' == records
  {
    forall i | 0 <= i < |keys| ensures KeyOf(orders, records[i]) == keys[i] {
      assert keys[i] in keys;
      KeyOfRecord(orders, events, keys[i]);
    }
    forall k ensures k in keys <==> k in keys' {
      if k in keys {
        var i :| 0 <= i < |keys| && keys[i] == k;
        assert KeyOf(orders, records[i]) == k;
        assert HasKey(orders, records, k);
      }
    }
    RisingUnique(keys, keys');
    forall j | 0 <= j < |keys| ensures records'[j] == records[j] {
      SameRecord(orders, events, keys, records, j);
    }
  }

  lemma {:induction false} SameRecord(orders: Orders, events: seq<Event>, keys: seq<EventKey>, records: seq<Event>,
                                      j: nat)
    requires IsConsolidation(orders, events, keys, records) && j < |keys|
    requires forall i :: 0 <= i < |keys| ==> KeyOf(orders, records[i]) == keys[i]
    ensures RecordFor(orders, records, keys[j]) == records[j]
  {
    var k, r := keys[j], records[j];
    FilesAre(orders, events, k);
    OnlyRecord(orders, keys, records, j, ProblemText);
    SameTexts(orders, events, keys, records, j);
  }

  lemma {:induction false} SameTexts(orders: Orders, events: seq<Event>, keys: seq<EventKey>, records: seq<Event>,
                                     j: nat)
    requires IsConsolidation(orders, events, keys, records) && j < |keys|
    requires forall i :: 0 <= i < |keys| ==> KeyOf(orders, records[i]) == keys[i]
    ensures RecordFor(orders, records, keys[j]).texts == records[j].texts
  {
    var again, texts := RecordFor(orders, records, keys[j]).texts, records[j].texts;
    assert records[j] == RecordFor(orders, events, keys[j]);
    forall f | f in FIELDS ensures f in texts && again[f] == texts[f] {
      SameField(orders, events, keys, records, j, f);
    }
    SameMap(again, texts);
  }

  lemma {:induction false} SameMap(a: map<TextField, string>, b: map<TextField, string>)
    requires forall f :: f in a <==> f in FIELDS
    requires forall f :: f in b <==> f in FIELDS
    requires forall f :: f in FIELDS ==> a[f] == b[f]
    ensures a == b
  {
  }

  lemma {:induction false} SameField(orders: Orders, events: seq<Event>, keys: seq<EventKey>, records: seq<Event>,
                                     j: nat, f: TextField)
    requires IsConsolidation(orders, events, keys, records) && j < |keys| && f in FIELDS
    requires forall i :: 0 <= i < |keys| ==> KeyOf(orders, records[i]) == keys[i]
    ensures f in records[j].texts && RecordFor(orders, records, keys[j]).texts[f] == records[j].texts[f]
  {
    FilesAre(orders, events, keys[j]);
    OnlyRecord(orders, keys, records, j, f);
    SameText(orders, events, keys[j], f, TextsFor(orders, records, keys[j], f));
  }

  /** The text of a record is collected alone, so joining it gives it back. */
  lemma {:induction false} SameText(orders: Orders, events: seq<Event>, k: EventKey, f: TextField, texts: seq<string>)
    requires f in FIELDS
    requires var text := RecordFor(orders, events, k).texts[f]; texts == if text != "" then [text] else []
    ensures RecordFor(orders, events, k).texts[f] == if OnlyIfFixed(f) && !k.fixed then "" else Joined(texts)
  {
  }

  // ---------- The result in terms of the events alone ----------

  /** d and e agree on command, types and flags. */
  ghost predicate SameGroup(d: Event, e: Event) {
    && d.cmd == e.cmd && d.failure == e.failure && d.issue == e.issue
    && d.fixed == e.fixed && d.introduced == e.introduced
  }

  /** The common start has k characters; there a ends or has the smaller character. */
  ghost predicate LessFrom(a: string, b: string, k: nat) {
    && k <= |a| && k < |b| && a[..k] == b[..k]
    && (k == |a| || a[k] < b[k])
  }

  lemma {:induction false} TextLessIs(a: string, b: string)
    ensures TextLess(a, b) <==> exists k: nat :: LessFrom(a, b, k)
  {
    if a != "" && b != "" && a[0] == b[0] {
      TextLessIs(a[1..], b[1..]);
      if k: nat :| LessFrom(a[1..], b[1..], k) {
        assert a[..k + 1] == [a[0]] + a[1..][..k] && b[..k + 1] == [b[0]] + b[1..][..k];
        assert LessFrom(a, b, k + 1);
      }
      if k: nat :| LessFrom(a, b, k) {
        assert k > 0;
        assert a[1..][..k - 1] == a[..k][1..] && b[1..][..k - 1] == b[..k][1..];
        assert LessFrom(a[1..], b[1..], k - 1);
      }
    } else {
      if a == "" && b != "" {
        assert LessFrom(a, b, 0);
      } else if a != "" && b != "" && a[0] < b[0] {
        assert LessFrom(a, b, 0);
      }
      forall k: nat | LessFrom(a, b, k) ensures TextLess(a, b) {
        if k > 0 {
          LessFromHead(a, b, k);
        }
      }
    }
  }

  lemma {:induction false} LessFromHead(a: string, b: string, k: nat)
    requires LessFrom(a, b, k) && k > 0
    ensures a != "" && a[0] == b[0]
  {
    assert a[..k][0] == b[..k][0];
  }

  ghost function OrderOf(orders: Orders, e: Event): int {
    if e.cmd in orders then orders[e.cmd] else 9999
  }

  /** The order of records: validation order, command, failure type, issue type, then false before true. */
  ghost predicate GoesFirst(orders: Orders, p: Event, q: Event) {
    || OrderOf(orders, p) < OrderOf(orders, q)
    || (OrderOf(orders, p) == OrderOf(orders, q) && exists k: nat :: LessFrom(p.cmd, q.cmd, k))
    || (p.cmd == q.cmd && exists k: nat :: LessFrom(p.failure, q.failure, k))
    || (p.cmd == q.cmd && p.failure == q.failure && exists k: nat :: LessFrom(p.issue, q.issue, k))
    || (p.cmd == q.cmd && p.failure == q.failure && p.issue == q.issue && !p.fixed && q.fixed)
    || (&& p.cmd == q.cmd && p.failure == q.failure && p.issue == q.issue && p.fixed == q.fixed
        && !p.introduced && q.introduced)
  }

  lemma {:induction false} KeyLessIs(orders: Orders, p: Event, q: Event)
    requires KeyLess(KeyOf(orders, p), KeyOf(orders, q))
    ensures GoesFirst(orders, p, q)
  {
    TextLessIs(p.cmd, q.cmd);
    TextLessIs(p.failure, q.failure);
    TextLessIs(p.issue, q.issue);
  }

  /** parts lists the non-empty texts of field f in the group of r, each once, in order of first appearance. */
  ghost predicate ListsTexts(events: seq<Event>, r: Event, f: TextField, parts: seq<string>) {
    && Distinct(parts)
    && (forall v :: v in parts <==> v != "" && Said(events, r, f, |events|, v))
    && (forall a, b, i :: 0 <= a < b < |parts| && Says(events, r, f, i, parts[b]) ==> Said(events, r, f, i, parts[a]))
  }

  /** Some event before the i-th says v. */
  ghost predicate Said(events: seq<Event>, r: Event, f: TextField, i: int, v: string) {
    exists j :: 0 <= j < i && Says(events, r, f, j, v)
  }

  /** Event i belongs to the group of r and has text v in field f. */
  ghost predicate Says(events: seq<Event>, r: Event, f: TextField, i: int, v: string) {
    0 <= i < |events| && SameGroup(events[i], r) && v == if f in events[i].texts then events[i].texts[f] else ""
  }

  lemma {:induction false} SameKeyIff(orders: Orders, d: Event, e: Event)
    ensures KeyOf(orders, d) == KeyOf(orders, e) <==> SameGroup(d, e)
  {
  }

  lemma {:induction false} TextsAre(orders: Orders, events: seq<Event>, r: Event, f: TextField)
    ensures ListsTexts(events, r, f, TextsFor(orders, events, KeyOf(orders, r), f))
  {
    if events != [] {
      var n := |events| - 1;
      TextsAre(orders, events[..n], r, f);
      SameKeyIff(orders, events[n], r);
      if SameGroup(events[n], r) && TextOf(events[n], f) != "" {
        TextAdded(events, r, f, TextsFor(orders, events[..n], KeyOf(orders, r), f));
      } else {
        NoTextAdded(events, r, f, TextsFor(orders, events[..n], KeyOf(orders, r), f));
      }
    }
  }

  /** What the events before the last one say. */
  lemma {:induction false} SaidBefore(events: seq<Event>, r: Event, f: TextField, i: int, v: string)
    requires events != []
    ensures var n := |events| - 1;
            && (Says(events[..n], r, f, i, v) <==> i < n && Says(events, r, f, i, v))
            && (i <= n ==> (Said(events[..n], r, f, i, v) <==> Said(events, r, f, i, v)))
  {
    var n := |events| - 1;
    forall j ensures Says(events[..n], r, f, j, v) <==> j < n && Says(events, r, f, j, v) {
      assert 0 <= j < n ==> events[..n][j] == events[j];
    }
  }

  lemma {:induction false} NoTextAdded(events: seq<Event>, r: Event, f: TextField, parts: seq<string>)
    requires events != [] && ListsTexts(events[..|events| - 1], r, f, parts)
    requires !SameGroup(events[|events| - 1], r) || TextOf(events[|events| - 1], f) == ""
    ensures ListsTexts(events, r, f, parts)
  {
    var n := |events| - 1;
    forall v ensures v in parts <==> v != "" && Said(events, r, f, |events|, v) {
      SaidBefore(events, r, f, n, v);
    }
    forall a, b, i | 0 <= a < b < |parts| && Says(events, r, f, i, parts[b]) ensures Said(events, r, f, i, parts[a]) {
      assert parts[b] in parts;
      SaidBefore(events, r, f, i, parts[b]);
      SaidBefore(events, r, f, i, parts[a]);
    }
  }

  lemma {:induction false} TextAdded(events: seq<Event>, r: Event, f: TextField, parts: seq<string>)
    requires events != [] && ListsTexts(events[..|events| - 1], r, f, parts)
    requires SameGroup(events[|events| - 1], r) && TextOf(events[|events| - 1], f) != ""
    ensures ListsTexts(events, r, f, AddNew(parts, TextOf(events[|events| - 1], f)))
  {
    var n, text := |events| - 1, TextOf(events[|events| - 1], f);
    var after := AddNew(parts, text);
    assert Says(events, r, f, n, text);
    forall v ensures v in after <==> v != "" && Said(events, r, f, |events|, v) {
      SaidBefore(events, r, f, n, v);
    }
    forall a, b, i | 0 <= a < b < |after| && Says(events, r, f, i, after[b]) ensures Said(events, r, f, i, after[a]) {
      AddedLater(events, r, f, parts, a, b, i);
    }
  }

  lemma {:induction false} AddedLater(events: seq<Event>, r: Event, f: TextField, parts: seq<string>, a: int, b: int,
                                      i: int)
    requires events != [] && ListsTexts(events[..|events| - 1], r, f, parts)
    requires TextOf(events[|events| - 1], f) != ""
    requires var after := AddNew(parts, TextOf(events[|events| - 1], f));
             0 <= a < b < |after| && Says(events, r, f, i, after[b])
    ensures Said(events, r, f, i, AddNew(parts, TextOf(events[|events| - 1], f))[a])
  {
    var n, after := |events| - 1, AddNew(parts, TextOf(events[|events| - 1], f));
    assert after[a] == parts[a] && parts[a] in parts;
    SaidBefore(events, r, f, i, after[b]);
    SaidBefore(events, r, f, i, after[a]);
    if i < n {
      assert after[b] in parts by {
        assert Said(events[..n], r, f, n, after[b]);
      }
    }
  }

  /** How texts are joined: one text stays as it is, and two lists are joined by an empty line. */
  lemma {:induction false} JoinLaw(a: seq<string>, b: seq<string>)
    ensures Joined([]) == ""
    ensures |a| == 1 ==> Joined(a) == a[0]
    ensures a != [] && b != [] ==> Joined(a + b) == Joined(a) + "\n\n" + Joined(b)
  {
    if a != [] && b != [] {
      TailOfJoin(a, b);
      if |a| > 1 {
        JoinLaw(a[1..], b);
        assert a[0] + "\n\n" + (Joined(a[1..]) + "\n\n" + Joined(b)) ==
               a[0] + "\n\n" + Joined(a[1..]) + "\n\n" + Joined(b);
      } else {
        JoinEmpty(b);
      }
    }
  }

  /** What a record says: the files and texts of the events of its group, and the fix only if it was fixed. */
  ghost predicate Describes(events: seq<Event>, r: Event) {
    && (exists i :: 0 <= i < |events| && SameGroup(events[i], r))
    && Distinct(r.files)
    && (forall x :: x in r.files <==> exists i :: 0 <= i < |events| && SameGroup(events[i], r) && x in events[i].files)
    && (forall f :: SaysTexts(events, r, f))
  }

  ghost predicate SaysTexts(events: seq<Event>, r: Event, f: TextField) {
    && f in r.texts
    && if f in {FixStrategy, WhyWorks, Repair} && !r.fixed then r.texts[f] == ""
       else exists parts :: ListsTexts(events, r, f, parts) && r.texts[f] == Joined(parts)
  }

  lemma {:induction false} RecordDescribes(orders: Orders, events: seq<Event>, k: EventKey)
    requires HasKey(orders, events, k)
    ensures Describes(events, RecordFor(orders, events, k))
  {
    var r := RecordFor(orders, events, k);
    KeyOfRecord(orders, events, k);
    forall i | 0 <= i < |events| ensures KeyOf(orders, events[i]) == k <==> SameGroup(events[i], r) {
      SameKeyIff(orders, events[i], r);
    }
    FilesAre(orders, events, k);
    forall f ensures SaysTexts(events, r, f) {
      assert f == ProblemText || f == RootCause || f == ChangesMade || f == FixStrategy || f == WhyWorks || f == Repair;
      TextsAre(orders, events, r, f);
    }
  }

  /** Every group has its record, records describe their groups, and they stand in order. */
  ghost predicate Consolidates(orders: Orders, events: seq<Event>, records: seq<Event>) {
    && (forall i :: 0 <= i < |records| ==> Describes(events, records[i]))
    && (forall i :: 0 <= i < |events| ==> HasRecord(records, events[i]))
    && (forall i, j :: 0 <= i < j < |records| ==> GoesFirst(orders, records[i], records[j]))
  }

  ghost predicate HasRecord(records: seq<Event>, e: Event) {
    exists j :: 0 <= j < |records| && SameGroup(e, records[j])
  }

  lemma {:induction false} RecordsConsolidate(orders: Orders, events: seq<Event>, keys: seq<EventKey>,
                                              records: seq<Event>)
    requires IsConsolidation(orders, events, keys, records)
    ensures Consolidates(orders, events, records)
  {
    forall i | 0 <= i < |records| ensures Describes(events, records[i]) && KeyOf(orders, records[i]) == keys[i] {
      assert keys[i] in keys;
      RecordDescribes(orders, events, keys[i]);
      KeyOfRecord(orders, events, keys[i]);
    }
    forall i | 0 <= i < |events| ensures HasRecord(records, events[i]) {
      assert HasKey(orders, events, KeyOf(orders, events[i]));
      var j :| 0 <= j < |keys| && keys[j] == KeyOf(orders, events[i]);
      SameKeyIff(orders, events[i], records[j]);
    }
    forall i, j | 0 <= i < j < |records| ensures GoesFirst(orders, records[i], records[j]) {
      KeyLessIs(orders, records[i], records[j]);
    }
  }
}
