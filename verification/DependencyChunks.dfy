/**
 Chunking the changes of a validation group along caller -> callee contexts: every batch
 repeats the whole caller, callee files are never cut, and the rest is sliced in order.
 */
module DependencyChunks {
  import opened NextFit
  import opened Sorting
  import opened Basics

  /** One parsed change with its texts in lower case. A file may be missing or empty in malformed input. */
  datatype Change = Change(file: Option<string>, before: string, after: string, line: int)

  datatype Context = Context(caller: Option<string>, callees: seq<Option<string>>)

  datatype Chunk = Chunk(changes: seq<Change>, contexts: seq<Context>, terminal: bool)

  /** A file name that Python treats as true. */
  predicate Named(f: Option<string>) {
    f.Some? && f.value != ""
  }

  function OfFile(changes: seq<Change>, f: Option<string>): seq<Change> {
    if changes == [] then [] else
      (if changes[0].file == f then [changes[0]] else []) + OfFile(changes[1..], f)
  }

  /** The changes a context sees of one of its files; an unnamed file has none. */
  function Part(changes: seq<Change>, f: Option<string>): seq<Change> {
    if Named(f) then OfFile(changes, f) else []
  }

  function Gather(changes: seq<Change>, files: seq<Option<string>>): seq<Change> {
    if files == [] then [] else Part(changes, files[0]) + Gather(changes, files[1..])
  }

  ghost function Sum(chunks: seq<Chunk>): multiset<Change> {
    if chunks == [] then multiset{} else multiset(chunks[0].changes) + Sum(chunks[1..])
  }

  // ---------- Counting ----------

  lemma {:induction false} CountOfFile(changes: seq<Change>, f: Option<string>, x: Change)
    ensures multiset(OfFile(changes, f))[x] == if x.file == f then multiset(changes)[x] else 0
  {
    if changes != [] {
      assert changes == [changes[0]] + changes[1..];
      CountOfFile(changes[1..], f, x);
    }
  }

  lemma {:induction false} CountPart(changes: seq<Change>, f: Option<string>, x: Change)
    ensures multiset(Part(changes, f))[x] == if Named(f) && x.file == f then multiset(changes)[x] else 0
  {
    CountOfFile(changes, f, x);
  }

  /** Callees are gathered in their order. */
  lemma {:induction false} GatherJoin(changes: seq<Change>, a: seq<Option<string>>, b: seq<Option<string>>)
    ensures Gather(changes, a + b) == Gather(changes, a) + Gather(changes, b)
  {
    if a == [] {
      JoinEmpty(b);
    } else {
      TailOfJoin(a, b);
      GatherJoin(changes, a[1..], b);
      JoinAssociates(Part(changes, a[0]), Gather(changes, a[1..]), Gather(changes, b));
    }
  }

  lemma {:induction false} CountGather(changes: seq<Change>, files: seq<Option<string>>, x: Change)
    ensures Named(x.file) && x.file in files ==> multiset(Gather(changes, files))[x] >= multiset(changes)[x]
    ensures !Named(x.file) || x.file !in files ==> multiset(Gather(changes, files))[x] == 0
    ensures multiset(changes)[x] == 0 ==> multiset(Gather(changes, files))[x] == 0
  {
    if files != [] {
      CountPart(changes, files[0], x);
      CountGather(changes, files[1..], x);
    }
  }

  lemma {:induction false} SumJoin(a: seq<Chunk>, b: seq<Chunk>)
    ensures Sum(a + b) == Sum(a) + Sum(b)
  {
    if a == [] {
      JoinEmpty(b);
    } else {
      TailOfJoin(a, b);
      SumJoin(a[1..], b);
    }
  }

  lemma {:induction false} SumOne(c: Chunk)
    ensures Sum([c]) == multiset(c.changes)
  {
    assert [c][1..] == [];
  }

  function Joined(chunks: seq<Chunk>): seq<Change> {
    if chunks == [] then [] else chunks[0].changes + Joined(chunks[1..])
  }

  lemma {:induction false} SumIsJoined(chunks: seq<Chunk>)
    ensures Sum(chunks) == multiset(Joined(chunks))
  {
    if chunks != [] {
      SumIsJoined(chunks[1..]);
    }
  }

  lemma {:induction false} JoinedAppend(chunks: seq<Chunk>, c: Chunk)
    ensures Joined(chunks + [c]) == Joined(chunks) + c.changes
  {
    if chunks == [] {
      assert chunks + [c] == [c] && [c][1..] == [];
    } else {
      TailOfJoin(chunks, [c]);
      JoinedAppend(chunks[1..], c);
    }
  }

  // ---------- One context ----------

  /** The callees of a context that a batch holds. */
  function Keep(callees: seq<Option<string>>, batch: seq<Option<string>>): (r: seq<Option<string>>)
    ensures forall f :: f in r <==> f in callees && f in batch
  {
    if callees == [] then [] else
      (if callees[0] in batch then [callees[0]] else []) + Keep(callees[1..], batch)
  }

  function BatchChunk(changes: seq<Change>, ctx: Context, batch: seq<Option<string>>): Chunk {
    Chunk(Part(changes, ctx.caller) + Gather(changes, batch), [ctx.(callees := Keep(ctx.callees, batch))], false)
  }

  function EffectiveLimit(changes: seq<Change>, ctx: Context, limit: int): int {
    Max(limit, |Part(changes, ctx.caller)| + if ctx.callees != [] then 1 else 0)
  }

  function ContextChanges(changes: seq<Change>, ctx: Context): seq<Change> {
    Part(changes, ctx.caller) + Gather(changes, ctx.callees)
  }

  /** Callee files cut into consecutive batches, one chunk each. */
  ghost predicate IsContextSplit(changes: seq<Change>, ctx: Context, limit: int,
                                 batches: seq<seq<Option<string>>>, chunks: seq<Chunk>) {
    && batches != [] && |chunks| == |batches|
    && Concat(batches) == ctx.callees
    && forall i :: 0 <= i < |batches| ==> IsBatch(changes, ctx, limit, batches, chunks, i)
  }

  /** Batch i holds several callees only within the limit, and starts where batch i - 1 could take no more. */
  ghost predicate IsBatch(changes: seq<Change>, ctx: Context, limit: int, batches: seq<seq<Option<string>>>,
                          chunks: seq<Chunk>, i: nat)
    requires i < |batches| == |chunks|
  {
    && chunks[i] == BatchChunk(changes, ctx, batches[i])
    && (ctx.callees != [] ==> batches[i] != [])
    && (|batches[i]| > 1 ==> WithinLimit(changes, ctx, limit, |chunks[i].changes|))
    && (ctx.callees != [] && i > 0 ==>
          !WithinLimit(changes, ctx, limit, |chunks[i - 1].changes| + |Part(changes, batches[i][0])|))
  }

  /** So many changes are allowed: the limit, or the caller's changes and one more. */
  ghost predicate WithinLimit(changes: seq<Change>, ctx: Context, limit: int, size: nat) {
    size <= limit || size <= |Part(changes, ctx.caller)| + 1
  }

  function Sizes(changes: seq<Change>, files: seq<Option<string>>): seq<Sized<Option<string>>> {
    seq(|files|, i requires 0 <= i < |files| => Sized(files[i], |Part(changes, files[i])|))
  }

  function Values<T>(s: seq<Sized<T>>): seq<T> {
    seq(|s|, i requires 0 <= i < |s| => s[i].value)
  }

  function AllValues<T>(batches: seq<seq<Sized<T>>>): seq<seq<T>> {
    seq(|batches|, i requires 0 <= i < |batches| => Values(batches[i]))
  }

  lemma {:induction false} ConcatValues<T>(batches: seq<seq<Sized<T>>>)
    ensures Concat(AllValues(batches)) == Values(Concat(batches))
  {
    if batches != [] {
      ConcatValues(batches[1..]);
      assert AllValues(batches)[1..] == AllValues(batches[1..]);
      assert Values(batches[0] + Concat(batches[1..])) == Values(batches[0]) + Values(Concat(batches[1..]));
    }
  }

  ghost predicate SizedBy(changes: seq<Change>, s: seq<Sized<Option<string>>>) {
    forall i :: 0 <= i < |s| ==> s[i].size == |Part(changes, s[i].value)|
  }

  lemma {:induction false} GatherLoad(changes: seq<Change>, s: seq<Sized<Option<string>>>)
    requires SizedBy(changes, s)
    ensures |Gather(changes, Values(s))| == Load(s)
  {
    if s != [] {
      assert Values(s)[1..] == Values(s[1..]);
      GatherLoad(changes, s[1..]);
    }
  }

  lemma {:induction false} BatchIsSized(changes: seq<Change>, batches: seq<seq<Sized<Option<string>>>>, i: nat)
    requires i < |batches| && SizedBy(changes, Concat(batches))
    ensures SizedBy(changes, batches[i])
  {
    var all := Concat(batches);
    if i == 0 {
      forall k | 0 <= k < |batches[0]| ensures batches[0][k].size == |Part(changes, batches[0][k].value)| {
        assert batches[0][k] == all[k];
      }
    } else {
      var rest := Concat(batches[1..]);
      forall k | 0 <= k < |rest| ensures rest[k].size == |Part(changes, rest[k].value)| {
        assert rest[k] == all[|batches[0]| + k];
      }
      BatchIsSized(changes, batches[1..], i - 1);
    }
  }

  /** What one context becomes: its batches of callees, and one chunk for each of them. */
  datatype ContextSplit = ContextSplit(batches: seq<seq<Option<string>>>, chunks: seq<Chunk>)

  /** A context that finds nothing is skipped, one that fits is a single chunk, any other is cut by callees. */
  ghost predicate SplitsContext(changes: seq<Change>, ctx: Context, limit: int, part: ContextSplit) {
    if ContextChanges(changes, ctx) == [] then part.chunks == [] else
      && IsContextSplit(changes, ctx, limit, part.batches, part.chunks)
      && (|ContextChanges(changes, ctx)| <= limit ==> |part.chunks| == 1)
  }

  method SplitContext(changes: seq<Change>, ctx: Context, limit: int)
    returns (chunks: seq<Chunk>, ghost part: ContextSplit)
    ensures part.chunks == chunks && SplitsContext(changes, ctx, limit, part)
    ensures chunks == [] <==> ContextChanges(changes, ctx) == []
    ensures 0 < |ContextChanges(changes, ctx)| <= limit ==>
              chunks == [Chunk(ContextChanges(changes, ctx), [ctx], false)]
  {
    var found := ContextChanges(changes, ctx);
    chunks, part := [], ContextSplit([], []);
    if found != [] {
      ghost var batches;
      if |found| <= limit {
        OneChunk(changes, ctx, limit);
        chunks, batches := [Chunk(found, [ctx], false)], [ctx.callees];
      } else {
        chunks, batches := BatchCallees(changes, ctx, limit);
      }
      part := ContextSplit(batches, chunks);
    }
  }

  lemma {:induction false} OneChunk(changes: seq<Change>, ctx: Context, limit: int)
    requires |ContextChanges(changes, ctx)| <= limit
    ensures IsContextSplit(changes, ctx, limit, [ctx.callees], [Chunk(ContextChanges(changes, ctx), [ctx], false)])
  {
    KeepAll(ctx.callees, ctx.callees);
    assert IsBatch(changes, ctx, limit, [ctx.callees], [Chunk(ContextChanges(changes, ctx), [ctx], false)], 0);
    assert [ctx.callees][1..] == [] && Concat([ctx.callees]) == ctx.callees + [];
  }

  lemma {:induction false} KeepAll(callees: seq<Option<string>>, batch: seq<Option<string>>)
    requires forall f :: f in callees ==> f in batch
    ensures Keep(callees, batch) == callees
  {
    if callees != [] {
      KeepAll(callees[1..], batch);
    }
  }

  ghost predicate IsPackingOf(changes: seq<Change>, ctx: Context, limit: int, packed: seq<seq<Sized<Option<string>>>>) {
    if ctx.callees == [] then packed == [[]] else
      IsNextFit(|Part(changes, ctx.caller)|, EffectiveLimit(changes, ctx, limit), Sizes(changes, ctx.callees), packed)
  }

  /** Callees are packed next-fit around the caller; without callees there is one empty batch. */
  method PackCallees(changes: seq<Change>, ctx: Context, limit: int)
    returns (packed: seq<seq<Sized<Option<string>>>>)
    ensures IsPackingOf(changes, ctx, limit, packed)
  {
    packed := Pack(|Part(changes, ctx.caller)|, EffectiveLimit(changes, ctx, limit), Sizes(changes, ctx.callees));
    if ctx.callees == [] {
      packed := [[]];
    }
  }

  /** The branch for contexts that do not fit: one chunk for each batch of callees. */
  method BatchCallees(changes: seq<Change>, ctx: Context, limit: int)
    returns (chunks: seq<Chunk>, ghost batches: seq<seq<Option<string>>>)
    ensures IsContextSplit(changes, ctx, limit, batches, chunks)
  {
    var packed := PackCallees(changes, ctx, limit);
    chunks := [];
    for i := 0 to |packed|
      invariant |chunks| == i
      invariant forall j :: 0 <= j < i ==> chunks[j] == BatchChunk(changes, ctx, Values(packed[j]))
    {
      chunks := chunks + [BatchChunk(changes, ctx, Values(packed[i]))];
    }
    batches := AllValues(packed);
    PackedChunks(changes, ctx, limit, packed, chunks);
  }

  lemma {:induction false} PackedChunks(changes: seq<Change>, ctx: Context, limit: int,
                                        packed: seq<seq<Sized<Option<string>>>>,
                     chunks: seq<Chunk>)
    requires IsPackingOf(changes, ctx, limit, packed) && |chunks| == |packed|
    requires forall j :: 0 <= j < |packed| ==> chunks[j] == BatchChunk(changes, ctx, Values(packed[j]))
    ensures IsContextSplit(changes, ctx, limit, AllValues(packed), chunks)
  {
    PackedCallees(changes, ctx, limit, packed);
    forall i | 0 <= i < |packed| ensures IsBatch(changes, ctx, limit, AllValues(packed), chunks, i) {
      if ctx.callees != [] {
        assert i > 0 ==> chunks[i - 1] == BatchChunk(changes, ctx, Values(packed[i - 1]));
        PackedFits(changes, ctx, limit, packed, i);
        PackedFull(changes, ctx, limit, packed, i);
      }
    }
  }

  lemma {:induction false} PackedCallees(changes: seq<Change>, ctx: Context, limit: int,
                                         packed: seq<seq<Sized<Option<string>>>>)
    requires IsPackingOf(changes, ctx, limit, packed)
    ensures packed != [] && Concat(AllValues(packed)) == ctx.callees
  {
    if ctx.callees == [] {
      var values := AllValues(packed);
      assert |values| == 1 && values[0] == [] && values[1..] == [];
    } else {
      ConcatValues(packed);
      assert Values(Sizes(changes, ctx.callees)) == ctx.callees;
    }
  }

  /** The size of a batch chunk is the load of its batch on top of the caller. */
  lemma {:induction false} PackedSize(changes: seq<Change>, ctx: Context, limit: int,
                                      packed: seq<seq<Sized<Option<string>>>>, i: nat)
    requires IsPackingOf(changes, ctx, limit, packed) && ctx.callees != [] && i < |packed|
    ensures SizedBy(changes, packed[i])
    ensures |BatchChunk(changes, ctx, Values(packed[i])).changes| == |Part(changes, ctx.caller)| + Load(packed[i])
  {
    BatchIsSized(changes, packed, i);
    GatherLoad(changes, packed[i]);
  }

  lemma {:induction false} PackedFits(changes: seq<Change>, ctx: Context, limit: int,
                                      packed: seq<seq<Sized<Option<string>>>>, i: nat)
    requires IsPackingOf(changes, ctx, limit, packed) && ctx.callees != [] && i < |packed|
    ensures packed[i] != []
    ensures |packed[i]| > 1 ==> WithinLimit(changes, ctx, limit, |BatchChunk(changes, ctx, Values(packed[i])).changes|)
  {
    PackedSize(changes, ctx, limit, packed, i);
    assert |packed[i]| == 1 || Fits(|Part(changes, ctx.caller)|, EffectiveLimit(changes, ctx, limit), packed[i]);
  }

  lemma {:induction false} PackedFull(changes: seq<Change>, ctx: Context, limit: int,
                                      packed: seq<seq<Sized<Option<string>>>>, i: nat)
    requires IsPackingOf(changes, ctx, limit, packed) && ctx.callees != [] && i < |packed| && packed[i] != []
    ensures i > 0 ==>
              !WithinLimit(changes, ctx, limit, |BatchChunk(changes, ctx, Values(packed[i - 1])).changes|
                                                + |Part(changes, packed[i][0].value)|)
  {
    if i > 0 {
      PackedSize(changes, ctx, limit, packed, i - 1);
      PackedSize(changes, ctx, limit, packed, i);
      LoadConcat(packed[i - 1], [packed[i][0]]);
      assert !Fits(|Part(changes, ctx.caller)|, EffectiveLimit(changes, ctx, limit), packed[i - 1] + [packed[i][0]]);
    }
  }

  // ---------- What one context covers ----------

  /** x belongs to the caller or to a callee of ctx, and its file has a name. */
  ghost predicate Touches(ctx: Context, x: Change) {
    Named(x.file) && (x.file == ctx.caller || x.file in ctx.callees)
  }

  lemma {:induction false} CountBatch(changes: seq<Change>, ctx: Context, batch: seq<Option<string>>, x: Change)
    ensures var n := multiset(BatchChunk(changes, ctx, batch).changes)[x];
            && (Named(x.file) && (x.file == ctx.caller || x.file in batch) ==> n >= multiset(changes)[x])
            && (!Named(x.file) || (x.file != ctx.caller && x.file !in batch) ==> n == 0)
            && (multiset(changes)[x] == 0 ==> n == 0)
  {
    CountPart(changes, ctx.caller, x);
    CountGather(changes, batch, x);
  }

  lemma {:induction false} InSomeBatch<T>(batches: seq<seq<T>>, f: T)
    ensures f in Concat(batches) <==> exists i :: 0 <= i < |batches| && f in batches[i]
  {
    if batches != [] {
      var rest := batches[1..];
      InSomeBatch(rest, f);
      if f in Concat(rest) {
        var i :| 0 <= i < |rest| && f in rest[i];
        assert f in batches[i + 1];
      }
      if i :| 0 <= i < |batches| && f in batches[i] {
        assert i > 0 ==> batches[i] == rest[i - 1];
      }
    }
  }

  lemma {:induction false} SumAtLeast(chunks: seq<Chunk>, i: nat, x: Change)
    requires i < |chunks|
    ensures Sum(chunks)[x] >= multiset(chunks[i].changes)[x]
  {
    if i > 0 {
      SumAtLeast(chunks[1..], i - 1, x);
    }
  }

  lemma {:induction false} SumZero(chunks: seq<Chunk>, x: Change)
    requires forall i :: 0 <= i < |chunks| ==> multiset(chunks[i].changes)[x] == 0
    ensures Sum(chunks)[x] == 0
  {
    if chunks != [] {
      SumZero(chunks[1..], x);
    }
  }

  /** A context covers each change of its named files, and shows no other change. */
  lemma {:induction false} ContextCovers(changes: seq<Change>, ctx: Context, limit: int,
                                         batches: seq<seq<Option<string>>>,
                      chunks: seq<Chunk>, x: Change)
    requires IsContextSplit(changes, ctx, limit, batches, chunks)
    ensures Touches(ctx, x) ==> Sum(chunks)[x] >= multiset(changes)[x]
    ensures !Touches(ctx, x) ==> Sum(chunks)[x] == 0
    ensures multiset(changes)[x] == 0 ==> Sum(chunks)[x] == 0
  {
    InSomeBatch(batches, x.file);
    if Touches(ctx, x) {
      var i :| 0 <= i < |batches| && (x.file == ctx.caller || x.file in batches[i]);
      assert IsBatch(changes, ctx, limit, batches, chunks, i);
      CountBatch(changes, ctx, batches[i], x);
      SumAtLeast(chunks, i, x);
    }
    if !Touches(ctx, x) || multiset(changes)[x] == 0 {
      forall i | 0 <= i < |chunks| ensures multiset(chunks[i].changes)[x] == 0 {
        assert IsBatch(changes, ctx, limit, batches, chunks, i);
        CountBatch(changes, ctx, batches[i], x);
      }
      SumZero(chunks, x);
    }
  }

  lemma {:induction false} OfFileJoin(a: seq<Change>, b: seq<Change>, f: Option<string>)
    ensures OfFile(a + b, f) == OfFile(a, f) + OfFile(b, f)
  {
    if a == [] {
      JoinEmpty(b);
    } else {
      TailOfJoin(a, b);
      OfFileJoin(a[1..], b, f);
      JoinAssociates(if a[0].file == f then [a[0]] else [], OfFile(a[1..], f), OfFile(b, f));
    }
  }

  lemma {:induction false} OfFileTwice(changes: seq<Change>, f: Option<string>, g: Option<string>)
    ensures OfFile(OfFile(changes, g), f) == if f == g then OfFile(changes, f) else []
  {
    if changes != [] {
      var head := if changes[0].file == g then [changes[0]] else [];
      OfFileJoin(head, OfFile(changes[1..], g), f);
      OfFileTwice(changes[1..], f, g);
      assert head != [] ==> head[1..] == [];
    }
  }

  lemma {:induction false} OfFileGather(changes: seq<Change>, files: seq<Option<string>>, f: Option<string>)
    requires Named(f) && Distinct(files)
    ensures OfFile(Gather(changes, files), f) == if f in files then OfFile(changes, f) else []
  {
    if files != [] {
      OfFileJoin(Part(changes, files[0]), Gather(changes, files[1..]), f);
      OfFileTwice(changes, f, files[0]);
      OfFileGather(changes, files[1..], f);
    }
  }

  ghost predicate WholeInAll(changes: seq<Change>, chunks: seq<Chunk>, f: Option<string>) {
    forall i :: 0 <= i < |chunks| ==> OfFile(chunks[i].changes, f) == OfFile(changes, f)
  }

  /** The changes of f stand whole in exactly one of the chunks, and the others hold none of them. */
  ghost predicate WholeInOne(changes: seq<Change>, chunks: seq<Chunk>, f: Option<string>) {
    exists i :: && 0 <= i < |chunks| && OfFile(chunks[i].changes, f) == OfFile(changes, f)
                && forall j :: 0 <= j < |chunks| && j != i ==> OfFile(chunks[j].changes, f) == []
  }

  /**
   With distinct callees other than the caller, every chunk of a context shows the whole caller,
   and each callee's changes stand whole in exactly one of the chunks.
   */
  lemma {:induction false} CalleeWholeInOneBatch(changes: seq<Change>, ctx: Context, limit: int,
                                                 batches: seq<seq<Option<string>>>,
                              chunks: seq<Chunk>, f: Option<string>)
    requires IsContextSplit(changes, ctx, limit, batches, chunks)
    requires Distinct(ctx.callees)
    requires ctx.caller !in ctx.callees
    requires Named(f)
    ensures f == ctx.caller ==> WholeInAll(changes, chunks, f)
    ensures f in ctx.callees ==> WholeInOne(changes, chunks, f)
  {
    forall i | 0 <= i < |chunks|
      ensures OfFile(chunks[i].changes, f) == if f == ctx.caller || f in batches[i] then OfFile(changes, f) else []
    {
      assert IsBatch(changes, ctx, limit, batches, chunks, i);
      DistinctBatch(batches, i);
      assert ctx.caller !in batches[i] by { InSomeBatch(batches, ctx.caller); }
      ChunkShows(changes, ctx, batches[i], f);
    }
    if f in ctx.callees {
      InSomeBatch(batches, f);
      var i :| 0 <= i < |batches| && f in batches[i];
      forall j | 0 <= j < |chunks| && j != i ensures OfFile(chunks[j].changes, f) == [] {
        if i < j { DisjointBatches(batches, i, j); } else { DisjointBatches(batches, j, i); }
      }
    }
  }

  lemma {:induction false} ChunkShows(changes: seq<Change>, ctx: Context, batch: seq<Option<string>>, f: Option<string>)
    requires Named(f) && Distinct(batch) && ctx.caller !in batch
    ensures OfFile(BatchChunk(changes, ctx, batch).changes, f) ==
            if f == ctx.caller || f in batch then OfFile(changes, f) else []
  {
    OfFileJoin(Part(changes, ctx.caller), Gather(changes, batch), f);
    OfFileTwice(changes, f, ctx.caller);
    OfFileGather(changes, batch, f);
  }

  lemma {:induction false} DistinctBatch<T(!new)>(batches: seq<seq<T>>, i: nat)
    requires i < |batches|
    requires Distinct(Concat(batches))
    ensures Distinct(batches[i])
    decreases i
  {
    var all, n := Concat(batches), |batches[0]|;
    if i == 0 {
      forall a, b | 0 <= a < b < n ensures batches[0][a] != batches[0][b] {
        assert all[a] != all[b];
      }
    } else {
      TailDistinct(batches);
      DistinctBatch(batches[1..], i - 1);
    }
  }

  lemma {:induction false} TailDistinct<T(!new)>(batches: seq<seq<T>>)
    requires batches != []
    requires Distinct(Concat(batches))
    ensures Distinct(Concat(batches[1..]))
  {
    var all, n, rest := Concat(batches), |batches[0]|, Concat(batches[1..]);
    forall a, b | 0 <= a < b < |rest| ensures rest[a] != rest[b] {
      assert all[n + a] != all[n + b];
    }
  }

  lemma {:induction false} DisjointBatches<T(!new)>(batches: seq<seq<T>>, i: nat, j: nat)
    requires i < j < |batches|
    requires Distinct(Concat(batches))
    ensures forall f :: f in batches[i] ==> f !in batches[j]
    decreases i
  {
    if i > 0 {
      TailDistinct(batches);
      DisjointBatches(batches[1..], i - 1, j - 1);
    } else {
      var all, n, rest := Concat(batches), |batches[0]|, Concat(batches[1..]);
      forall f | f in batches[0] ensures f !in batches[j] {
        InSomeBatch(batches[1..], f);
        assert batches[j] == batches[1..][j - 1];
        var a :| 0 <= a < n && batches[0][a] == f;
        forall b | 0 <= b < |rest| ensures rest[b] != f {
          assert all[a] != all[n + b];
        }
      }
    }
  }

  // ---------- All contexts and the rest ----------

  ghost predicate Touched(contexts: seq<Context>, x: Change) {
    exists i :: 0 <= i < |contexts| && Touches(contexts[i], x)
  }

  /** What the chunks made for some contexts show of the changes. */
  ghost predicate Covers(changes: seq<Change>, contexts: seq<Context>, chunks: seq<Chunk>) {
    forall x :: && (Touched(contexts, x) ==> Sum(chunks)[x] >= multiset(changes)[x])
                && (!Touched(contexts, x) || multiset(changes)[x] == 0 ==> Sum(chunks)[x] == 0)
  }

  /** Every file that the contexts name: callers that have a name, and all callees. */
  function DepFiles(contexts: seq<Context>): set<Option<string>> {
    if contexts == [] then {} else
      var last := contexts[|contexts| - 1];
      DepFiles(contexts[..|contexts| - 1]) + (if Named(last.caller) then {last.caller} else {}) + Elems(last.callees)
  }

  function CalleeFiles(contexts: seq<Context>): set<Option<string>> {
    set i, f | 0 <= i < |contexts| && f in contexts[i].callees :: f
  }

  /** Chunks cut from a group list no callee that the group does not list. */
  ghost predicate Inherit(contexts: seq<Context>, chunks: seq<Chunk>) {
    forall i :: 0 <= i < |chunks| ==> CalleeFiles(chunks[i].contexts) <= CalleeFiles(contexts)
  }

  lemma {:induction false} DepFilesAre(contexts: seq<Context>, f: Option<string>)
    ensures f in DepFiles(contexts) <==>
            exists i :: 0 <= i < |contexts| && ((Named(f) && f == contexts[i].caller) || f in contexts[i].callees)
  {
    if contexts != [] {
      var n := |contexts| - 1;
      DepFilesAre(contexts[..n], f);
      assert f in Elems(contexts[n].callees) <==> f in contexts[n].callees;
      if f in DepFiles(contexts[..n]) {
        var i :| 0 <= i < n && ((Named(f) && f == contexts[..n][i].caller) || f in contexts[..n][i].callees);
        assert contexts[..n][i] == contexts[i];
      }
      if i :| 0 <= i < |contexts| && ((Named(f) && f == contexts[i].caller) || f in contexts[i].callees) {
        assert i < n ==> contexts[..n][i] == contexts[i];
      }
    }
  }

  lemma {:induction false} TouchedIff(contexts: seq<Context>, x: Change)
    ensures Touched(contexts, x) <==> Named(x.file) && x.file in DepFiles(contexts)
  {
    DepFilesAre(contexts, x.file);
  }

  lemma {:induction false} CoverOne(changes: seq<Change>, ctx: Context, limit: int, batches: seq<seq<Option<string>>>,
                                    chunks: seq<Chunk>)
    requires if ContextChanges(changes, ctx) == [] then chunks == []
             else IsContextSplit(changes, ctx, limit, batches, chunks)
    ensures Covers(changes, [ctx], chunks)
  {
    forall x: Change
      ensures Touched([ctx], x) ==> Sum(chunks)[x] >= multiset(changes)[x]
      ensures !Touched([ctx], x) || multiset(changes)[x] == 0 ==> Sum(chunks)[x] == 0
    {
      assert Touched([ctx], x) <==> Touches(ctx, x) by { assert [ctx][0] == ctx; }
      if ContextChanges(changes, ctx) == [] {
        CountPart(changes, ctx.caller, x);
        CountGather(changes, ctx.callees, x);
        assert multiset(ContextChanges(changes, ctx))[x] == 0;
      } else {
        ContextCovers(changes, ctx, limit, batches, chunks, x);
      }
    }
  }

  lemma {:induction false} CoversJoin(changes: seq<Change>, a: seq<Context>, made: seq<Chunk>, ctx: Context,
                                      more: seq<Chunk>)
    requires Covers(changes, a, made) && Covers(changes, [ctx], more)
    ensures Covers(changes, a + [ctx], made + more)
  {
    SumJoin(made, more);
    forall x ensures Touched(a + [ctx], x) <==> Touched(a, x) || Touched([ctx], x) {
      TouchedJoin(a, ctx, x);
    }
  }

  lemma {:induction false} TouchedJoin(a: seq<Context>, ctx: Context, x: Change)
    ensures Touched(a + [ctx], x) <==> Touched(a, x) || Touched([ctx], x)
  {
    var all := a + [ctx];
    if Touched(a, x) {
      var i :| 0 <= i < |a| && Touches(a[i], x);
      assert all[i] == a[i];
    }
    if Touched([ctx], x) {
      assert all[|a|] == ctx == [ctx][0];
    }
    if Touched(all, x) {
      var i :| 0 <= i < |all| && Touches(all[i], x);
      assert i == |a| ==> Touches([ctx][0], x);
    }
  }

  lemma {:induction false} InheritOne(changes: seq<Change>, contexts: seq<Context>, k: nat, limit: int,
                   batches: seq<seq<Option<string>>>, chunks: seq<Chunk>)
    requires k < |contexts|
    requires chunks == [] || IsContextSplit(changes, contexts[k], limit, batches, chunks)
    ensures Inherit(contexts, chunks)
  {
    forall i | 0 <= i < |chunks| ensures CalleeFiles(chunks[i].contexts) <= CalleeFiles(contexts) {
      assert IsBatch(changes, contexts[k], limit, batches, chunks, i);
      assert chunks[i].contexts == [contexts[k].(callees := Keep(contexts[k].callees, batches[i]))];
    }
  }

  ghost predicate Made(changes: seq<Change>, contexts: seq<Context>, n: nat, made: seq<Chunk>)
    requires n <= |contexts|
  {
    && Covers(changes, contexts[..n], made) && Inherit(contexts, made)
    && (forall i :: 0 <= i < |made| ==> !made[i].terminal)
    && ((forall i :: 0 <= i < n ==> ContextChanges(changes, contexts[i]) == []) ==> made == [])
  }

  lemma {:induction false} CoversNext(changes: seq<Change>, contexts: seq<Context>, n: nat, made: seq<Chunk>,
                                      more: seq<Chunk>)
    requires n < |contexts| && Covers(changes, contexts[..n], made) && Covers(changes, [contexts[n]], more)
    ensures Covers(changes, contexts[..n + 1], made + more)
  {
    CoversJoin(changes, contexts[..n], made, contexts[n], more);
    TakeNext(contexts, n);
  }

  lemma {:induction false} DepFilesNext(contexts: seq<Context>, n: nat)
    requires n < |contexts|
    ensures DepFiles(contexts[..n + 1]) == DepFiles(contexts[..n])
            + (if Named(contexts[n].caller) then {contexts[n].caller} else {}) + Elems(contexts[n].callees)
  {
    TakeNext(contexts, n);
  }

  /** One part for each of the first contexts. */
  ghost predicate ByContext(changes: seq<Change>, contexts: seq<Context>, limit: int, parts: seq<ContextSplit>) {
    |parts| <= |contexts| && forall i :: 0 <= i < |parts| ==> IsPart(changes, contexts, limit, parts, i)
  }

  ghost predicate IsPart(changes: seq<Change>, contexts: seq<Context>, limit: int, parts: seq<ContextSplit>, i: nat)
    requires i < |parts| <= |contexts|
  {
    SplitsContext(changes, contexts[i], limit, parts[i])
  }

  lemma {:induction false} SplitFacts(changes: seq<Change>, contexts: seq<Context>, k: nat, limit: int,
                                      part: ContextSplit)
    requires k < |contexts| && SplitsContext(changes, contexts[k], limit, part)
    ensures Covers(changes, [contexts[k]], part.chunks) && Inherit(contexts, part.chunks)
    ensures forall i :: 0 <= i < |part.chunks| ==> !part.chunks[i].terminal
    ensures ContextChanges(changes, contexts[k]) == [] ==> part.chunks == []
  {
    CoverOne(changes, contexts[k], limit, part.batches, part.chunks);
    InheritOne(changes, contexts, k, limit, part.batches, part.chunks);
    forall i | 0 <= i < |part.chunks| ensures !part.chunks[i].terminal {
      assert IsBatch(changes, contexts[k], limit, part.batches, part.chunks, i);
    }
  }

  lemma {:induction false} MadeNext(changes: seq<Change>, contexts: seq<Context>, n: nat, made: seq<Chunk>,
                                    chunks: seq<Chunk>)
    requires n < |contexts| && Made(changes, contexts, n, made)
    requires Covers(changes, [contexts[n]], chunks) && Inherit(contexts, chunks)
    requires forall i :: 0 <= i < |chunks| ==> !chunks[i].terminal
    requires ContextChanges(changes, contexts[n]) == [] ==> chunks == []
    ensures Made(changes, contexts, n + 1, made + chunks)
  {
    CoversNext(changes, contexts, n, made, chunks);
  }

  ghost function AllChunks(parts: seq<ContextSplit>): seq<Chunk> {
    if parts == [] then [] else AllChunks(parts[..|parts| - 1]) + parts[|parts| - 1].chunks
  }

  /** The chunks of one context stand next to each other. */
  lemma {:induction false} PartStands(parts: seq<ContextSplit>, i: nat) returns (a: nat)
    requires i < |parts|
    ensures a + |parts[i].chunks| <= |AllChunks(parts)|
    ensures AllChunks(parts)[a..a + |parts[i].chunks|] == parts[i].chunks
  {
    var n := |parts| - 1;
    if i == n {
      a := |AllChunks(parts[..n])|;
    } else {
      a := PartStands(parts[..n], i);
      assert parts[..n][i] == parts[i];
    }
  }

  /** The chunks made for the first contexts, one part for each. */
  ghost predicate Progress(changes: seq<Change>, contexts: seq<Context>, n: nat, limit: int, made: seq<Chunk>,
                           parts: seq<ContextSplit>) {
    && |parts| == n && ByContext(changes, contexts, limit, parts)
    && Made(changes, contexts, n, made) && made == AllChunks(parts)
  }

  lemma {:induction false} PartNext(changes: seq<Change>, contexts: seq<Context>, limit: int,
                                    parts: seq<ContextSplit>, part: ContextSplit)
    requires ByContext(changes, contexts, limit, parts) && |parts| < |contexts|
    requires SplitsContext(changes, contexts[|parts|], limit, part)
    ensures ByContext(changes, contexts, limit, parts + [part])
  {
    var more := parts + [part];
    forall i | 0 <= i < |more| ensures IsPart(changes, contexts, limit, more, i) {
      if i < |parts| {
        assert IsPart(changes, contexts, limit, parts, i);
      }
    }
  }

  lemma {:induction false} ProgressNext(changes: seq<Change>, contexts: seq<Context>, n: nat, limit: int,
                                        made: seq<Chunk>,
                     parts: seq<ContextSplit>, part: ContextSplit)
    requires Progress(changes, contexts, n, limit, made, parts) && n < |contexts|
    requires SplitsContext(changes, contexts[n], limit, part)
    ensures Progress(changes, contexts, n + 1, limit, made + part.chunks, parts + [part])
  {
    PartNext(changes, contexts, limit, parts, part);
    MadeByPart(changes, contexts, n, limit, made, part);
    AllChunksNext(parts, part);
  }

  lemma {:induction false} MadeByPart(changes: seq<Change>, contexts: seq<Context>, n: nat, limit: int,
                                      made: seq<Chunk>,
                   part: ContextSplit)
    requires n < |contexts| && Made(changes, contexts, n, made)
    requires SplitsContext(changes, contexts[n], limit, part)
    ensures Made(changes, contexts, n + 1, made + part.chunks)
  {
    SplitFacts(changes, contexts, n, limit, part);
    MadeNext(changes, contexts, n, made, part.chunks);
  }

  /** The loop over contexts. */
  method SplitContexts(changes: seq<Change>, contexts: seq<Context>, limit: int)
    returns (made: seq<Chunk>, depFiles: set<Option<string>>, ghost parts: seq<ContextSplit>)
    ensures depFiles == DepFiles(contexts)
    ensures Progress(changes, contexts, |contexts|, limit, made, parts)
  {
    made, depFiles, parts := [], {}, [];
    for i := 0 to |contexts|
      invariant depFiles == DepFiles(contexts[..i])
      invariant Progress(changes, contexts, i, limit, made, parts)
    {
      var ctx := contexts[i];
      var chunks, part := SplitContext(changes, ctx, limit);
      ProgressNext(changes, contexts, i, limit, made, parts, part);
      DepFilesNext(contexts, i);
      parts := parts + [part];
      made := made + chunks;
      depFiles := depFiles + (if Named(ctx.caller) then {ctx.caller} else {}) + Elems(ctx.callees);
    }
    TakeAll(contexts);
  }

  lemma {:induction false} AllChunksNext(parts: seq<ContextSplit>, part: ContextSplit)
    ensures AllChunks(parts + [part]) == AllChunks(parts) + part.chunks
  {
    assert (parts + [part])[..|parts|] == parts;
  }

  function Rest(changes: seq<Change>, files: set<Option<string>>): seq<Change> {
    if changes == [] then [] else
      (if changes[0].file in files then [] else [changes[0]]) + Rest(changes[1..], files)
  }

  lemma {:induction false} CountRest(changes: seq<Change>, files: set<Option<string>>, x: Change)
    ensures multiset(Rest(changes, files))[x] == if x.file in files then 0 else multiset(changes)[x]
  {
    if changes != [] {
      assert changes == [changes[0]] + changes[1..];
      CountRest(changes[1..], files, x);
    }
  }

  /** What is left of two lists stands in their order. */
  lemma {:induction false} RestJoin(a: seq<Change>, b: seq<Change>, files: set<Option<string>>)
    ensures Rest(a + b, files) == Rest(a, files) + Rest(b, files)
  {
    if a == [] {
      JoinEmpty(b);
    } else {
      TailOfJoin(a, b);
      RestJoin(a[1..], b, files);
      JoinAssociates(if a[0].file in files then [] else [a[0]], Rest(a[1..], files), Rest(b, files));
    }
  }

  /** Changes outside every context, sliced in order: full slices, then one that may be shorter. */
  ghost predicate AreSlices(limit: nat, slices: seq<Chunk>) {
    forall i :: 0 <= i < |slices| ==>
                  && slices[i].contexts == [] && !slices[i].terminal
                  && 0 < |slices[i].changes| <= limit
                  && (i < |slices| - 1 ==> |slices[i].changes| == limit)
  }

  method SliceRest(rest: seq<Change>, limit: nat) returns (slices: seq<Chunk>)
    requires limit >= 1
    ensures Joined(slices) == rest
    ensures AreSlices(limit, slices)
  {
    slices := [];
    var start := 0;
    while start < |rest|
      invariant 0 <= start <= |rest|
      invariant Joined(slices) == rest[..start]
      invariant AreSlices(limit, slices)
      invariant start < |rest| && slices != [] ==> |slices[|slices| - 1].changes| == limit
    {
      var end := if start + limit < |rest| then start + limit else |rest|;
      var slice := Chunk(rest[start..end], [], false);
      assert rest[..end] == rest[..start] + rest[start..end];
      JoinedAppend(slices, slice);
      slices := slices + [slice];
      start := end;
    }
    TakeAll(rest);
  }

  /** The one way to lose a change: its file has no name, yet some context lists it as a callee. */
  predicate Loses(contexts: seq<Context>, x: Change) {
    !Named(x.file) && x.file in DepFiles(contexts)
  }

  ghost predicate AllLost(group: Chunk) {
    forall x :: x in group.changes ==> Loses(group.contexts, x)
  }

  /** Changes outside the contexts come out exactly once, those of named files at least once, no others. */
  ghost predicate Accounts(group: Chunk, chunks: seq<Chunk>) {
    && (forall x: Change :: x.file !in DepFiles(group.contexts) ==> Sum(chunks)[x] == multiset(group.changes)[x])
    && (forall x :: !Loses(group.contexts, x) ==> Sum(chunks)[x] >= multiset(group.changes)[x])
    && (forall x :: multiset(group.changes)[x] == 0 ==> Sum(chunks)[x] == 0)
  }

  ghost predicate Drops(group: Chunk, chunks: seq<Chunk>) {
    forall x :: Loses(group.contexts, x) ==> Sum(chunks)[x] == 0
  }

  /**
   What dependency chunking promises about every change; the whole group is handed back only
   when all its changes would be lost.
   */
  ghost predicate IsDependencySplit(group: Chunk, chunks: seq<Chunk>) {
    && Accounts(group, chunks)
    && (if AllLost(group) then chunks == [group] else Drops(group, chunks))
    && Inherit(group.contexts, chunks)
    && (forall i :: 0 <= i < |chunks| ==> chunks[i] == group || !chunks[i].terminal)
  }

  lemma {:induction false} SplitAccounts(group: Chunk, made: seq<Chunk>, slices: seq<Chunk>)
    requires Covers(group.changes, group.contexts, made)
    requires Sum(slices) == multiset(Rest(group.changes, DepFiles(group.contexts)))
    ensures Accounts(group, made + slices) && Drops(group, made + slices)
  {
    SumJoin(made, slices);
    forall x: Change
      ensures x.file !in DepFiles(group.contexts) ==> Sum(made + slices)[x] == multiset(group.changes)[x]
      ensures !Loses(group.contexts, x) ==> Sum(made + slices)[x] >= multiset(group.changes)[x]
      ensures Loses(group.contexts, x) ==> Sum(made + slices)[x] == 0
      ensures multiset(group.changes)[x] == 0 ==> Sum(made + slices)[x] == 0
    {
      TouchedIff(group.contexts, x);
      CountRest(group.changes, DepFiles(group.contexts), x);
    }
  }

  lemma {:induction false} WholeGroup(group: Chunk)
    requires AllLost(group)
    ensures IsDependencySplit(group, [group])
  {
    SumOne(group);
  }

  /** Contexts in their order, each cut as above, then the slices; or the whole group if that gives nothing. */
  ghost predicate IsChunking(group: Chunk, limit: nat, parts: seq<ContextSplit>, slices: seq<Chunk>,
                             chunks: seq<Chunk>) {
    && |parts| == |group.contexts| && ByContext(group.changes, group.contexts, limit, parts)
    && Joined(slices) == Rest(group.changes, DepFiles(group.contexts)) && AreSlices(limit, slices)
    && chunks == if AllLost(group) then [group] else AllChunks(parts) + slices
  }

  method ChunkByDependencies(group: Chunk, limit: nat)
    returns (chunks: seq<Chunk>, ghost parts: seq<ContextSplit>, ghost slices: seq<Chunk>)
    requires limit >= 1
    ensures IsChunking(group, limit, parts, slices, chunks)
    ensures IsDependencySplit(group, chunks)
    ensures ShowsChanges(group, chunks) && chunks != []
  {
    var made, depFiles;
    made, depFiles, parts := SplitContexts(group.changes, group.contexts, limit);
    var sliced := SliceRest(Rest(group.changes, depFiles), limit);
    slices := sliced;
    FinishChunking(group, limit, made, slices);
    chunks := made + sliced;
    if chunks == [] {
      chunks := [group];
    }
    ChangesShown(group, chunks);
  }

  /** Some chunk shows x. */
  ghost predicate ShownBy(chunks: seq<Chunk>, x: Change) {
    exists k :: 0 <= k < |chunks| && x in chunks[k].changes
  }

  /** No context lists the file of x. */
  ghost predicate Unlisted(contexts: seq<Context>, x: Change) {
    forall c :: c in contexts ==> c.caller != x.file && x.file !in c.callees
  }

  /** Nothing foreign, every change of a named file, and what no context lists exactly as often as before. */
  ghost predicate ShowsChanges(group: Chunk, chunks: seq<Chunk>) {
    && (forall x :: ShownBy(chunks, x) ==> x in group.changes)
    && (forall x :: x in group.changes && x.file.Some? && x.file.value != "" ==> ShownBy(chunks, x))
    && (forall x :: Unlisted(group.contexts, x) ==> Sum(chunks)[x] == multiset(group.changes)[x])
  }

  lemma {:induction false} SumShows(chunks: seq<Chunk>, x: Change)
    ensures Sum(chunks)[x] > 0 <==> ShownBy(chunks, x)
  {
    if chunks != [] {
      var rest := chunks[1..];
      SumShows(rest, x);
      assert x in chunks[0].changes <==> multiset(chunks[0].changes)[x] > 0;
      if ShownBy(rest, x) {
        var k :| 0 <= k < |rest| && x in rest[k].changes;
        assert x in chunks[k + 1].changes;
      }
      if ShownBy(chunks, x) {
        var k :| 0 <= k < |chunks| && x in chunks[k].changes;
        assert k > 0 ==> rest[k - 1] == chunks[k];
      }
    }
  }

  lemma {:induction false} ChangesShown(group: Chunk, chunks: seq<Chunk>)
    requires IsDependencySplit(group, chunks)
    ensures ShowsChanges(group, chunks)
  {
    forall x
      ensures ShownBy(chunks, x) ==> x in group.changes
      ensures x in group.changes && x.file.Some? && x.file.value != "" ==> ShownBy(chunks, x)
    {
      SumShows(chunks, x);
      assert x in group.changes <==> multiset(group.changes)[x] > 0;
    }
    forall x | Unlisted(group.contexts, x) ensures Sum(chunks)[x] == multiset(group.changes)[x] {
      DepFilesAre(group.contexts, x.file);
    }
  }

  lemma {:induction false} FinishChunking(group: Chunk, limit: nat, made: seq<Chunk>, slices: seq<Chunk>)
    requires Made(group.changes, group.contexts, |group.contexts|, made)
    requires Joined(slices) == Rest(group.changes, DepFiles(group.contexts)) && AreSlices(limit, slices)
    ensures made + slices == [] <==> AllLost(group)
    ensures IsDependencySplit(group, if made + slices == [] then [group] else made + slices)
  {
    TakeAll(group.contexts);
    SumIsJoined(slices);
    SplitAccounts(group, made, slices);
    FallbackIffAllLost(group, made, slices);
    if AllLost(group) {
      WholeGroup(group);
    } else {
      InheritSlices(group.contexts, made, slices);
    }
  }

  /**
   In the finished list the chunks of context i stand next to each other. With distinct callees other
   than the caller, each of them repeats the whole caller, every callee is whole in exactly one of them,
   and those with several callees stay within the effective limit.
   */
  lemma {:induction false} ContextStandsTogether(group: Chunk, limit: nat, parts: seq<ContextSplit>, slices: seq<Chunk>,
                              chunks: seq<Chunk>, i: nat, f: Option<string>)
    returns (a: nat, b: nat)
    requires IsChunking(group, limit, parts, slices, chunks) && i < |group.contexts|
    requires Named(f) && OfFile(group.changes, f) != []
    requires f == group.contexts[i].caller || f in group.contexts[i].callees
    requires Distinct(group.contexts[i].callees) && group.contexts[i].caller !in group.contexts[i].callees
    ensures a <= b <= |chunks|
    ensures IsContextSplit(group.changes, group.contexts[i], limit, parts[i].batches, chunks[a..b])
    ensures if f == group.contexts[i].caller then WholeInAll(group.changes, chunks[a..b], f)
            else WholeInOne(group.changes, chunks[a..b], f)
  {
    FileNotLost(group, f);
    a, b := PartInList(group, limit, parts, slices, chunks, i);
    PartShows(group.changes, group.contexts[i], limit, parts[i], f);
  }

  lemma {:induction false} PartInList(group: Chunk, limit: nat, parts: seq<ContextSplit>, slices: seq<Chunk>,
                                      chunks: seq<Chunk>, i: nat)
    returns (a: nat, b: nat)
    requires IsChunking(group, limit, parts, slices, chunks) && i < |group.contexts| && !AllLost(group)
    ensures a <= b <= |chunks| && chunks[a..b] == parts[i].chunks
    ensures SplitsContext(group.changes, group.contexts[i], limit, parts[i])
  {
    a := PartStands(parts, i);
    b := a + |parts[i].chunks|;
    SliceOfJoin(AllChunks(parts), slices, a, b);
    assert IsPart(group.changes, group.contexts, limit, parts, i);
  }

  lemma {:induction false} PartShows(changes: seq<Change>, ctx: Context, limit: int, part: ContextSplit,
                                     f: Option<string>)
    requires SplitsContext(changes, ctx, limit, part) && Named(f) && OfFile(changes, f) != []
    requires f == ctx.caller || f in ctx.callees
    requires Distinct(ctx.callees) && ctx.caller !in ctx.callees
    ensures IsContextSplit(changes, ctx, limit, part.batches, part.chunks)
    ensures if f == ctx.caller then WholeInAll(changes, part.chunks, f) else WholeInOne(changes, part.chunks, f)
  {
    FoundByContext(changes, ctx, f);
    CalleeWholeInOneBatch(changes, ctx, limit, part.batches, part.chunks, f);
  }

  lemma {:induction false} SliceOfJoin<T>(s: seq<T>, t: seq<T>, a: nat, b: nat)
    requires a <= b <= |s|
    ensures (s + t)[a..b] == s[a..b]
  {
  }

  /** The chunk shows the caller first and carries the one context it was made for, with the callees of its batch. */
  ghost predicate CarriesContext(changes: seq<Change>, chunk: Chunk, ctx: Context, batch: seq<Option<string>>) {
    && |chunk.contexts| == 1 && chunk.contexts[0].caller == ctx.caller && !chunk.terminal
    && (forall f :: f in chunk.contexts[0].callees <==> f in ctx.callees && f in batch)
    && (ctx.caller.Some? && ctx.caller.value != "" ==> OfFile(changes, ctx.caller) <= chunk.changes)
  }

  /** In the finished list every chunk of a context carries that context, cut down to its own callees. */
  lemma {:induction false} ContextCarried(group: Chunk, limit: nat, parts: seq<ContextSplit>, slices: seq<Chunk>,
                                          chunks: seq<Chunk>, i: nat)
    returns (a: nat, b: nat)
    requires IsChunking(group, limit, parts, slices, chunks) && i < |group.contexts|
    requires ContextChanges(group.changes, group.contexts[i]) != []
    ensures a < b <= |chunks| && b - a == |parts[i].batches| && Concat(parts[i].batches) == group.contexts[i].callees
    ensures forall k :: 0 <= k < b - a ==>
                          CarriesContext(group.changes, chunks[a + k], group.contexts[i], parts[i].batches[k])
  {
    FoundNotLost(group, group.contexts[i]);
    a, b := PartInList(group, limit, parts, slices, chunks, i);
    forall k | 0 <= k < b - a
      ensures CarriesContext(group.changes, chunks[a + k], group.contexts[i], parts[i].batches[k])
    {
      assert chunks[a..b][k] == chunks[a + k];
      assert IsBatch(group.changes, group.contexts[i], limit, parts[i].batches, parts[i].chunks, k);
      BatchCarries(group.changes, group.contexts[i], parts[i].batches[k]);
    }
  }

  lemma {:induction false} BatchCarries(changes: seq<Change>, ctx: Context, batch: seq<Option<string>>)
    ensures CarriesContext(changes, BatchChunk(changes, ctx, batch), ctx, batch)
  {
  }

  /** How many changes the caller of a context has. */
  ghost function CallerSize(changes: seq<Change>, ctx: Context): nat {
    if ctx.caller.Some? && ctx.caller.value != "" then |OfFile(changes, ctx.caller)| else 0
  }

  /**
   The sizes in the finished list. A chunk around several callees has at most `limit` changes, or at most one
   more than the caller has. A context with more changes than that and at least two callees is cut into two
   or more chunks; one with at most `limit` changes is never cut.
   */
  lemma {:induction false} ContextSizes(group: Chunk, limit: nat, parts: seq<ContextSplit>, slices: seq<Chunk>,
                                        chunks: seq<Chunk>, i: nat)
    returns (a: nat, b: nat)
    requires IsChunking(group, limit, parts, slices, chunks) && i < |group.contexts|
    requires ContextChanges(group.changes, group.contexts[i]) != []
    ensures a < b <= |chunks| && b - a == |parts[i].batches|
    ensures forall k :: 0 <= k < b - a && |parts[i].batches[k]| > 1 ==>
                          || |chunks[a + k].changes| <= limit
                          || |chunks[a + k].changes| <= CallerSize(group.changes, group.contexts[i]) + 1
    ensures var size := |ContextChanges(group.changes, group.contexts[i])|;
            && (size <= limit ==> b - a == 1)
            && (|group.contexts[i].callees| >= 2 ==>
                  size <= limit || size <= CallerSize(group.changes, group.contexts[i]) + 1 || b - a >= 2)
  {
    FoundNotLost(group, group.contexts[i]);
    a, b := PartInList(group, limit, parts, slices, chunks, i);
    PartSizes(group.changes, group.contexts[i], limit, parts[i]);
    assert forall k :: 0 <= k < b - a ==> chunks[a + k] == chunks[a..b][k];
  }

  lemma {:induction false} PartSizes(changes: seq<Change>, ctx: Context, limit: int, part: ContextSplit)
    requires SplitsContext(changes, ctx, limit, part) && ContextChanges(changes, ctx) != []
    ensures |part.chunks| == |part.batches| > 0
    ensures forall k :: 0 <= k < |part.batches| && |part.batches[k]| > 1 ==>
                          || |part.chunks[k].changes| <= limit
                          || |part.chunks[k].changes| <= CallerSize(changes, ctx) + 1
    ensures |ContextChanges(changes, ctx)| <= limit ==> |part.chunks| == 1
    ensures |ctx.callees| >= 2 ==>
              || |ContextChanges(changes, ctx)| <= limit
              || |ContextChanges(changes, ctx)| <= CallerSize(changes, ctx) + 1
              || |part.chunks| >= 2
  {
    forall k | 0 <= k < |part.batches| && |part.batches[k]| > 1
      ensures || |part.chunks[k].changes| <= limit
              || |part.chunks[k].changes| <= CallerSize(changes, ctx) + 1
    {
      assert IsBatch(changes, ctx, limit, part.batches, part.chunks, k);
    }
    if |part.batches| == 1 {
      assert IsBatch(changes, ctx, limit, part.batches, part.chunks, 0);
      assert part.batches[1..] == [];
      JoinEmpty(part.batches[0]);
      assert Concat(part.batches) == part.batches[0] + Concat(part.batches[1..]);
      assert part.batches[0] == ctx.callees;
    }
  }

  /** A context that finds changes keeps the group from being handed back whole. */
  lemma {:induction false} FoundNotLost(group: Chunk, ctx: Context)
    requires ContextChanges(group.changes, ctx) != []
    ensures !AllLost(group)
  {
    if AllLost(group) {
      NothingFound(group, ctx);
    }
  }

  /** The changes of a named file keep a group from being handed back whole. */
  lemma {:induction false} FileNotLost(group: Chunk, f: Option<string>)
    requires Named(f) && OfFile(group.changes, f) != []
    ensures !AllLost(group)
  {
    var x := OfFile(group.changes, f)[0];
    CountOfFile(group.changes, f, x);
    assert x in multiset(OfFile(group.changes, f));
    assert x in group.changes && x.file == f;
  }

  lemma {:induction false} FoundByContext(changes: seq<Change>, ctx: Context, f: Option<string>)
    requires Named(f) && OfFile(changes, f) != [] && (f == ctx.caller || f in ctx.callees)
    ensures ContextChanges(changes, ctx) != []
  {
    if f in ctx.callees {
      var x := OfFile(changes, f)[0];
      CountOfFile(changes, f, x);
      assert x in multiset(OfFile(changes, f));
      CountGather(changes, ctx.callees, x);
      assert x in multiset(Gather(changes, ctx.callees));
    }
  }

  lemma {:induction false} NothingFound(group: Chunk, ctx: Context)
    requires AllLost(group)
    ensures ContextChanges(group.changes, ctx) == []
  {
    var found := ContextChanges(group.changes, ctx);
    forall x ensures multiset(found)[x] == 0 {
      CountPart(group.changes, ctx.caller, x);
      CountGather(group.changes, ctx.callees, x);
      assert x in group.changes <==> x in multiset(group.changes);
    }
    assert found != [] ==> multiset(found)[found[0]] > 0;
  }

  lemma {:induction false} FallbackIffAllLost(group: Chunk, made: seq<Chunk>, slices: seq<Chunk>)
    requires Made(group.changes, group.contexts, |group.contexts|, made)
    requires Joined(slices) == Rest(group.changes, DepFiles(group.contexts))
    requires forall i :: 0 <= i < |slices| ==> slices[i].changes != []
    requires Accounts(group, made + slices)
    ensures made + slices == [] <==> AllLost(group)
  {
    if AllLost(group) {
      forall i | 0 <= i < |group.contexts| ensures ContextChanges(group.changes, group.contexts[i]) == [] {
        NothingFound(group, group.contexts[i]);
      }
      var rest := Rest(group.changes, DepFiles(group.contexts));
      forall x ensures multiset(rest)[x] == 0 {
        CountRest(group.changes, DepFiles(group.contexts), x);
        assert x in group.changes <==> x in multiset(group.changes);
      }
      assert rest != [] ==> multiset(rest)[rest[0]] > 0;
    } else if made + slices == [] {
      forall x | x in group.changes ensures Loses(group.contexts, x) {
        assert multiset(group.changes)[x] > 0;
      }
    }
  }

  lemma {:induction false} InheritSlices(contexts: seq<Context>, made: seq<Chunk>, slices: seq<Chunk>)
    requires Inherit(contexts, made)
    requires forall i :: 0 <= i < |slices| ==> slices[i].contexts == []
    ensures Inherit(contexts, made + slices)
  {
  }

  /** Nothing is lost exactly when either all changes or none of them could be. */
  lemma {:induction false} CoversAllIff(group: Chunk, chunks: seq<Chunk>)
    requires IsDependencySplit(group, chunks)
    ensures multiset(group.changes) <= Sum(chunks) <==>
            AllLost(group) || forall x :: x in group.changes ==> !Loses(group.contexts, x)
  {
    if AllLost(group) {
      SumOne(group);
    } else {
      if multiset(group.changes) <= Sum(chunks) {
        forall x | x in group.changes ensures !Loses(group.contexts, x) {
          assert multiset(group.changes)[x] >= 1;
        }
      }
      if forall x :: x in group.changes ==> !Loses(group.contexts, x) {
        forall x ensures multiset(group.changes)[x] <= Sum(chunks)[x] {
          assert x in group.changes <==> x in multiset(group.changes);
        }
      }
    }
  }

  /** A concrete loss: a callee without a name next to one that has a name. */
  lemma {:induction false} UnnamedCalleeIsLost(chunks: seq<Chunk>)
    requires IsDependencySplit(Chunk([Change(Some(""), "", "", 1), Change(Some("a"), "", "", 2)],
                                     [Context(None, [Some(""), Some("a")])], false), chunks)
    ensures Sum(chunks)[Change(Some(""), "", "", 1)] == 0
  {
    var group := Chunk([Change(Some(""), "", "", 1), Change(Some("a"), "", "", 2)],
                       [Context(None, [Some(""), Some("a")])], false);
    DepFilesAre(group.contexts, Some(""));
    assert group.contexts[0].callees[0] == Some("");
    assert group.changes[1] in group.changes && !Loses(group.contexts, group.changes[1]);
  }
}
