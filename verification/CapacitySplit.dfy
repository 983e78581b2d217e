/** The three ways to cut a chunk that is too much for the model, and the choice between them. */
module CapacitySplit {
  import opened NextFit
  import opened Sorting
  import opened DependencyChunks
  import opened Basics
  import opened Text

  /** How many pieces to aim for; `half` is half of the model's chunk size in characters. */
  function SplitCount(promptSize: nat, changeCount: nat, half: nat): (n: nat)
    requires half > 0
    ensures 2 <= n <= 8
    ensures changeCount >= 2 ==> n <= changeCount
    ensures n > 2 ==> n <= promptSize / half + 1 && n <= changeCount / 10
    ensures n == 8 || n >= promptSize / half + 1 || n >= changeCount / 10
  {
    var estimated := Max(2, promptSize / half + 1);
    Max(2, Min(Min(estimated, changeCount / 10), 8))
  }

  // ---------- The three strategies ----------

  /** Pieces in order; each holds q changes, the first r of them one more. */
  ghost predicate ArePieces(chunk: Chunk, q: nat, r: nat, pieces: seq<Chunk>) {
    forall i :: 0 <= i < |pieces| ==>
                  && |pieces[i].changes| == q + (if i < r then 1 else 0)
                  && pieces[i].contexts == chunk.contexts && pieces[i].terminal == chunk.terminal
  }

  /** Sizes differ by at most one, larger pieces first. */
  ghost predicate IsEvenSplit(chunk: Chunk, n: nat, pieces: seq<Chunk>) {
    && n > 0 && |pieces| == n
    && Joined(pieces) == chunk.changes
    && ArePieces(chunk, |chunk.changes| / n, |chunk.changes| % n, pieces)
  }

  method SplitEvenly(chunk: Chunk, n: nat) returns (pieces: seq<Chunk>)
    requires n > 0
    ensures IsEvenSplit(chunk, n, pieces)
  {
    DivMod(|chunk.changes|, n);
    pieces := CutPieces(chunk, n, |chunk.changes| / n, |chunk.changes| % n);
  }

  lemma {:induction false} DivMod(size: nat, n: nat)
    requires n > 0
    ensures size == n * (size / n) + size % n
    ensures 0 <= size / n && 0 <= size % n < n
  {
  }

  method CutPieces(chunk: Chunk, n: nat, q: nat, r: nat) returns (pieces: seq<Chunk>)
    requires |chunk.changes| == n * q + r && r <= n
    ensures |pieces| == n && Joined(pieces) == chunk.changes && ArePieces(chunk, q, r, pieces)
  {
    pieces := [];
    var start := 0;
    for i := 0 to n
      invariant |pieces| == i
      invariant start == StartOf(q, r, i) <= |chunk.changes|
      invariant Joined(pieces) == chunk.changes[..start]
      invariant ArePieces(chunk, q, r, pieces)
    {
      var end := start + q + if i < r then 1 else 0;
      EvenBound(|chunk.changes|, n, q, r, i + 1);
      var piece := chunk.(changes := chunk.changes[start..end]);
      assert chunk.changes[..end] == chunk.changes[..start] + chunk.changes[start..end];
      JoinedAppend(pieces, piece);
      pieces := pieces + [piece];
      start := end;
    }
    EvenBound(|chunk.changes|, n, q, r, n);
    assert chunk.changes[..start] == chunk.changes;
  }

  /** Where piece i starts when earlier pieces hold q changes, the first r of them one more. */
  ghost function StartOf(q: nat, r: nat, i: nat): nat {
    if i == 0 then 0 else StartOf(q, r, i - 1) + q + if i - 1 < r then 1 else 0
  }

  lemma {:induction false} EvenStart(q: nat, r: nat, i: nat)
    ensures StartOf(q, r, i) == i * q + Min(i, r)
  {
    if i > 0 {
      EvenStart(q, r, i - 1);
      assert (i - 1) * q + q == i * q;
    }
  }

  lemma {:induction false} EvenBound(size: nat, n: nat, q: nat, r: nat, i: nat)
    requires size == n * q + r && i <= n && r <= n
    ensures StartOf(q, r, i) <= size
    ensures i == n ==> StartOf(q, r, i) == size
  {
    EvenStart(q, r, n);
    StartsGrow(q, r, i, n);
  }

  lemma {:induction false} StartsGrow(q: nat, r: nat, i: nat, n: nat)
    requires i <= n
    ensures StartOf(q, r, i) <= StartOf(q, r, n)
    decreases n
  {
    if i < n {
      StartsGrow(q, r, i, n - 1);
    }
  }

  // ---------- Splitting by kind ----------

  /** Config files, import or package lines, and everything else. */
  datatype Kind = Config | Dependency | Code

  const CONFIG_SUFFIXES := [".toml", ".yaml", ".yml", ".json", ".ini", ".cfg"]

  const DEPENDENCY_TERMS := ["import", "package"]

  function KindOf(x: Change): Kind {
    var path := if x.file.Some? then x.file.value else "";
    if EndsWithAny(path, CONFIG_SUFFIXES) then Config
    else if ContainsAny(x.before, DEPENDENCY_TERMS) || ContainsAny(x.after, DEPENDENCY_TERMS) then Dependency
    else Code
  }

  /** The kind of a change in the words of the tests: suffix of the path first, then terms in the texts. */
  lemma {:induction false} KindIs(x: Change)
    ensures KindOf(x) == Config <==> HasConfigSuffix(x)
    ensures KindOf(x) == Dependency <==> !HasConfigSuffix(x) && MentionsDependency(x)
  {
    ConfigPathIff(if x.file.Some? then x.file.value else "");
    DependencyTerms(x.before);
    DependencyTerms(x.after);
  }

  lemma {:induction false} ConfigPathIff(path: string)
    ensures EndsWithAny(path, CONFIG_SUFFIXES) <==> IsConfigPath(path)
  {
    EndsWithAnyIff(path, CONFIG_SUFFIXES);
    if c :| c in CONFIG_SUFFIXES && EndsWith(path, c) {
      assert IsConfigPath(path);
    }
    if IsConfigPath(path) {
      var c :| EndsWith(path, c) && c in {".toml", ".yaml", ".yml", ".json", ".ini", ".cfg"};
      assert c in CONFIG_SUFFIXES;
    }
  }

  ghost predicate IsConfigPath(path: string) {
    exists c :: EndsWith(path, c) && c in {".toml", ".yaml", ".yml", ".json", ".ini", ".cfg"}
  }

  ghost predicate HasConfigSuffix(x: Change) {
    x.file.Some? && IsConfigPath(x.file.value)
  }

  ghost predicate MentionsDependency(x: Change) {
    || Contains(x.before, "import") || Contains(x.before, "package")
    || Contains(x.after, "import") || Contains(x.after, "package")
  }

  lemma {:induction false} DependencyTerms(text: string)
    ensures ContainsAny(text, DEPENDENCY_TERMS) <==> Contains(text, "import") || Contains(text, "package")
  {
    ContainsAnyIff(text, DEPENDENCY_TERMS);
    assert "import" in DEPENDENCY_TERMS && "package" in DEPENDENCY_TERMS;
  }

  function OfKind(changes: seq<Change>, kind: Kind): seq<Change> {
    if changes == [] then [] else
      (if KindOf(changes[0]) == kind then [changes[0]] else []) + OfKind(changes[1..], kind)
  }

  lemma {:induction false} CountOfKind(changes: seq<Change>, kind: Kind, x: Change)
    ensures multiset(OfKind(changes, kind))[x] == if KindOf(x) == kind then multiset(changes)[x] else 0
  {
    if changes != [] {
      assert changes == [changes[0]] + changes[1..];
      CountOfKind(changes[1..], kind, x);
    }
  }

  lemma {:induction false} OfKindAppend(changes: seq<Change>, x: Change, kind: Kind)
    ensures OfKind(changes + [x], kind) == OfKind(changes, kind) + if KindOf(x) == kind then [x] else []
  {
    if changes == [] {
      assert changes + [x] == [x] && [x][1..] == [];
    } else {
      var head := if KindOf(changes[0]) == kind then [changes[0]] else [];
      TailOfJoin(changes, [x]);
      OfKindAppend(changes[1..], x, kind);
      assert OfKind(changes + [x], kind) == head + OfKind(changes[1..] + [x], kind);
    }
  }

  method GroupByType(changes: seq<Change>) returns (config: seq<Change>, dependency: seq<Change>, code: seq<Change>)
    ensures config == OfKind(changes, Config) && dependency == OfKind(changes, Dependency) &&
            code == OfKind(changes, Code)
  {
    config, dependency, code := [], [], [];
    for i := 0 to |changes|
      invariant config == OfKind(changes[..i], Config)
      invariant dependency == OfKind(changes[..i], Dependency)
      invariant code == OfKind(changes[..i], Code)
    {
      var x := changes[i];
      TakeNext(changes, i);
      OfKindAppend(changes[..i], x, Config);
      OfKindAppend(changes[..i], x, Dependency);
      OfKindAppend(changes[..i], x, Code);
      match KindOf(x)
      case Config => config := config + [x];
      case Dependency => dependency := dependency + [x];
      case Code => code := code + [x];
    }
    TakeAll(changes);
  }

  // ---------- Choosing a strategy ----------

  /** No change of the chunk can be lost by dependency chunking. */
  ghost predicate Safe(chunk: Chunk) {
    forall x :: x in chunk.changes ==> Named(x.file) || x.file !in CalleeFiles(chunk.contexts)
  }

  /** A piece shows only changes of its chunk, lists only its callees and is terminal only if it was. */
  ghost predicate Descends(piece: Chunk, chunk: Chunk) {
    && (forall x :: x in piece.changes ==> x in chunk.changes)
    && CalleeFiles(piece.contexts) <= CalleeFiles(chunk.contexts)
    && (piece.terminal ==> chunk.terminal)
  }

  /** What every strategy promises: at least two pieces, nothing foreign, nothing lost. */
  ghost predicate IsCapacitySplit(chunk: Chunk, pieces: seq<Chunk>) {
    && |pieces| >= 2
    && (forall i :: 0 <= i < |pieces| ==> Descends(pieces[i], chunk))
    && (Safe(chunk) ==> multiset(chunk.changes) <= Sum(pieces))
  }

  lemma {:induction false} SafePiece(piece: Chunk, chunk: Chunk)
    requires Descends(piece, chunk) && Safe(chunk)
    ensures Safe(piece)
  {
  }

  lemma {:induction false} DescendsTwice(a: Chunk, b: Chunk, c: Chunk)
    requires Descends(a, b) && Descends(b, c)
    ensures Descends(a, c)
  {
  }

  lemma {:induction false} UnnamedCallee(contexts: seq<Context>, f: Option<string>)
    requires !Named(f)
    ensures f in DepFiles(contexts) <==> f in CalleeFiles(contexts)
  {
    DepFilesAre(contexts, f);
  }

  lemma {:induction false} MembersOfPieces(chunk: Chunk, pieces: seq<Chunk>)
    requires forall x :: multiset(chunk.changes)[x] == 0 ==> Sum(pieces)[x] == 0
    ensures forall i, x :: 0 <= i < |pieces| && x in pieces[i].changes ==> x in chunk.changes
  {
    forall i, x | 0 <= i < |pieces| && x in pieces[i].changes ensures x in chunk.changes {
      SumAtLeast(pieces, i, x);
      assert x in multiset(pieces[i].changes);
      assert multiset(chunk.changes)[x] != 0;
    }
  }

  lemma {:induction false} DependencyIsCapacitySplit(chunk: Chunk, pieces: seq<Chunk>)
    requires IsDependencySplit(chunk, pieces) && |pieces| >= 2
    ensures IsCapacitySplit(chunk, pieces)
  {
    MembersOfPieces(chunk, pieces);
    if Safe(chunk) {
      forall x | x in chunk.changes ensures !Loses(chunk.contexts, x) {
        if !Named(x.file) { UnnamedCallee(chunk.contexts, x.file); }
      }
      CoversAllIff(chunk, pieces);
    }
  }

  lemma {:induction false} EvenIsCapacitySplit(chunk: Chunk, n: nat, pieces: seq<Chunk>)
    requires IsEvenSplit(chunk, n, pieces) && n >= 2
    ensures IsCapacitySplit(chunk, pieces)
  {
    SumIsJoined(pieces);
    MembersOfPieces(chunk, pieces);
  }

  /** The kinds in the order in which pieces are made for them. */
  function KindRank(k: Kind): nat {
    match k
    case Config => 0
    case Dependency => 1
    case Code => 2
  }

  /** The chunk cut down to some of its changes, if there are any. */
  function Piece(chunk: Chunk, changes: seq<Change>): seq<Chunk> {
    if changes == [] then [] else [chunk.(changes := changes)]
  }

  function KindPiece(chunk: Chunk, k: Kind): seq<Chunk> {
    Piece(chunk, OfKind(chunk.changes, k))
  }

  ghost predicate HoldsOneKind(chunk: Chunk, p: Chunk) {
    p.changes != [] && p == chunk.(changes := OfKind(chunk.changes, KindOf(p.changes[0])))
  }

  ghost predicate KindsRise(p: Chunk, q: Chunk) {
    p.changes != [] && q.changes != [] && KindRank(KindOf(p.changes[0])) < KindRank(KindOf(q.changes[0]))
  }

  /** Each piece holds all changes of one kind, in their order; the kinds rise from piece to piece. */
  ghost predicate OneKindEach(chunk: Chunk, pieces: seq<Chunk>) {
    && (forall i :: 0 <= i < |pieces| ==> HoldsOneKind(chunk, pieces[i]))
    && (forall i, j :: 0 <= i < j < |pieces| ==> KindsRise(pieces[i], pieces[j]))
  }

  lemma {:induction false} HeadOfKind(changes: seq<Change>, k: Kind)
    requires OfKind(changes, k) != []
    ensures KindOf(OfKind(changes, k)[0]) == k
  {
    var x := OfKind(changes, k)[0];
    CountOfKind(changes, k, x);
    assert x in multiset(OfKind(changes, k));
  }

  ghost predicate IsKindPiece(chunk: Chunk, k: Kind, p: Chunk) {
    p.changes != [] && KindOf(p.changes[0]) == k && p == chunk.(changes := OfKind(chunk.changes, k))
  }

  lemma {:induction false} KindPieceFacts(chunk: Chunk, k: Kind)
    ensures |KindPiece(chunk, k)| <= 1 && Joined(KindPiece(chunk, k)) == OfKind(chunk.changes, k)
    ensures forall i :: 0 <= i < |KindPiece(chunk, k)| ==> IsKindPiece(chunk, k, KindPiece(chunk, k)[i])
  {
    if OfKind(chunk.changes, k) != [] {
      HeadOfKind(chunk.changes, k);
      assert KindPiece(chunk, k)[1..] == [];
    }
  }

  lemma {:induction false} JoinedJoin(a: seq<Chunk>, b: seq<Chunk>)
    ensures Joined(a + b) == Joined(a) + Joined(b)
  {
    if a == [] {
      JoinEmpty(b);
    } else {
      TailOfJoin(a, b);
      JoinedJoin(a[1..], b);
    }
  }

  lemma {:induction false} KindsPartition(changes: seq<Change>)
    ensures multiset(OfKind(changes, Config)) + multiset(OfKind(changes, Dependency))
            + multiset(OfKind(changes, Code)) == multiset(changes)
  {
    var a, b, c := OfKind(changes, Config), OfKind(changes, Dependency), OfKind(changes, Code);
    forall x ensures multiset(a)[x] + multiset(b)[x] + multiset(c)[x] == multiset(changes)[x] {
      CountOfKind(changes, Config, x);
      CountOfKind(changes, Dependency, x);
      CountOfKind(changes, Code, x);
    }
  }

  lemma {:induction false} KindsAddUp(chunk: Chunk, a: seq<Chunk>, b: seq<Chunk>, c: seq<Chunk>)
    requires a == KindPiece(chunk, Config) && b == KindPiece(chunk, Dependency) && c == KindPiece(chunk, Code)
    ensures multiset(Joined(a + b + c)) == multiset(chunk.changes)
  {
    KindPieceFacts(chunk, Config);
    KindPieceFacts(chunk, Dependency);
    KindPieceFacts(chunk, Code);
    JoinedJoin(a + b, c);
    JoinedJoin(a, b);
    KindsPartition(chunk.changes);
  }

  /** One piece per type of change that occurs. */
  method SplitByType(chunk: Chunk) returns (pieces: seq<Chunk>)
    ensures multiset(Joined(pieces)) == multiset(chunk.changes)
    ensures OneKindEach(chunk, pieces)
    ensures |pieces| >= 2 <==> SeveralKinds(chunk.changes)
    ensures |pieces| >= 2 ==> IsCapacitySplit(chunk, pieces)
  {
    var config, dependency, code := GroupByType(chunk.changes);
    pieces := Piece(chunk, config) + Piece(chunk, dependency) + Piece(chunk, code);
    KindPiecesSplit(chunk, pieces);
    PiecesPerKind(chunk, pieces);
  }

  ghost predicate SeveralKinds(changes: seq<Change>) {
    exists x, y :: x in changes && y in changes && KindOf(x) != KindOf(y)
  }

  lemma {:induction false} PiecesPerKind(chunk: Chunk, pieces: seq<Chunk>)
    requires multiset(Joined(pieces)) == multiset(chunk.changes) && OneKindEach(chunk, pieces)
    ensures |pieces| >= 2 <==> SeveralKinds(chunk.changes)
  {
    forall x ensures ShownBy(pieces, x) <==> x in chunk.changes {
      ShownIffMember(chunk.changes, pieces, x);
    }
    if |pieces| >= 2 {
      assert KindsRise(pieces[0], pieces[1]);
      TwoKinds(chunk.changes, pieces);
    }
    forall p, x | p in pieces && x in p.changes ensures p.changes != [] && KindOf(p.changes[0]) == KindOf(x) {
      var i :| 0 <= i < |pieces| && pieces[i] == p;
      assert HoldsOneKind(chunk, pieces[i]);
      KindInPiece(chunk, p, x);
    }
    if x, y :| x in chunk.changes && y in chunk.changes && KindOf(x) != KindOf(y) {
      KindsNeedPieces(KindOf, pieces, x, y);
    }
  }

  lemma {:induction false} ShownIffMember(changes: seq<Change>, pieces: seq<Chunk>, x: Change)
    requires multiset(Joined(pieces)) == multiset(changes)
    ensures ShownBy(pieces, x) <==> x in changes
  {
    SumIsJoined(pieces);
    SumShows(pieces, x);
    assert x in changes <==> multiset(changes)[x] > 0;
  }

  lemma {:induction false} TwoKinds(changes: seq<Change>, pieces: seq<Chunk>)
    requires |pieces| >= 2 && KindsRise(pieces[0], pieces[1]) && forall x :: ShownBy(pieces, x) ==> x in changes
    ensures SeveralKinds(changes)
  {
    var x, y := pieces[0].changes[0], pieces[1].changes[0];
    assert ShownBy(pieces, x) && ShownBy(pieces, y);
    assert KindOf(x) != KindOf(y);
  }

  lemma {:induction false} KindsNeedPieces(kindOf: Change -> Kind, pieces: seq<Chunk>, x: Change, y: Change)
    requires forall p, z :: p in pieces && z in p.changes ==> p.changes != [] && kindOf(p.changes[0]) == kindOf(z)
    requires ShownBy(pieces, x) && ShownBy(pieces, y) && kindOf(x) != kindOf(y)
    ensures |pieces| >= 2
  {
    var i :| 0 <= i < |pieces| && x in pieces[i].changes;
    var j :| 0 <= j < |pieces| && y in pieces[j].changes;
    assert pieces[i] in pieces && pieces[j] in pieces;
  }

  lemma {:induction false} KindInPiece(chunk: Chunk, p: Chunk, x: Change)
    requires HoldsOneKind(chunk, p) && x in p.changes
    ensures KindOf(p.changes[0]) == KindOf(x)
  {
    assert x in multiset(p.changes);
    CountOfKind(chunk.changes, KindOf(p.changes[0]), x);
  }

  lemma {:induction false} KindPiecesRise(chunk: Chunk, pieces: seq<Chunk>)
    requires pieces == KindPiece(chunk, Config) + KindPiece(chunk, Dependency) + KindPiece(chunk, Code)
    ensures OneKindEach(chunk, pieces)
  {
    var a, b, c := KindPiece(chunk, Config), KindPiece(chunk, Dependency), KindPiece(chunk, Code);
    KindPieceFacts(chunk, Config);
    KindPieceFacts(chunk, Dependency);
    KindPieceFacts(chunk, Code);
    forall i | 0 <= i < |pieces| ensures IsKindPiece(chunk, Slot(|a|, |b|, i), pieces[i]) {
      assert pieces[i] == if i < |a| then a[i] else if i < |a| + |b| then b[i - |a|] else c[i - |a| - |b|];
    }
    forall i, j | 0 <= i < j < |pieces| ensures KindsRise(pieces[i], pieces[j]) {
      assert IsKindPiece(chunk, Slot(|a|, |b|, i), pieces[i]) && IsKindPiece(chunk, Slot(|a|, |b|, j), pieces[j]);
    }
  }

  /** The kind of piece i when config and dependency changes make `a` and `b` pieces. */
  function Slot(a: nat, b: nat, i: nat): Kind {
    if i < a then Config else if i < a + b then Dependency else Code
  }

  lemma {:induction false} KindPiecesSplit(chunk: Chunk, pieces: seq<Chunk>)
    requires pieces == KindPiece(chunk, Config) + KindPiece(chunk, Dependency) + KindPiece(chunk, Code)
    ensures multiset(Joined(pieces)) == multiset(chunk.changes) && OneKindEach(chunk, pieces)
    ensures |pieces| >= 2 ==> IsCapacitySplit(chunk, pieces)
  {
    KindPiecesRise(chunk, pieces);
    KindsAddUp(chunk, KindPiece(chunk, Config), KindPiece(chunk, Dependency), KindPiece(chunk, Code));
    forall i | 0 <= i < |pieces| ensures Descends(pieces[i], chunk) {
      KindDescends(chunk, pieces[i]);
    }
    SumIsJoined(pieces);
  }

  lemma {:induction false} KindDescends(chunk: Chunk, p: Chunk)
    requires HoldsOneKind(chunk, p)
    ensures Descends(p, chunk)
  {
    forall x | x in p.changes ensures x in chunk.changes {
      assert x in multiset(p.changes);
      CountOfKind(chunk.changes, KindOf(p.changes[0]), x);
      assert x in multiset(chunk.changes);
    }
  }

  /** pieces is what dependency chunking makes of the chunk. */
  ghost predicate ByDependencies(chunk: Chunk, limit: nat, pieces: seq<Chunk>) {
    exists parts, slices :: IsChunking(chunk, limit, parts, slices, pieces)
  }

  /** Nothing to cut along contexts: there are none, or they leave a single chunk. */
  ghost predicate NoContextCut(chunk: Chunk, limit: nat) {
    chunk.contexts == [] || exists one :: ByDependencies(chunk, limit, [one])
  }

  /**
   A prompt of moderate size: contexts come first, with the even share of changes as limit, then kinds if there
   are several, and an even cut is the last resort.
   */
  ghost predicate IsSmallSplit(chunk: Chunk, n: nat, pieces: seq<Chunk>)
    requires n > 0
  {
    var share := if |chunk.changes| / n >= 1 then |chunk.changes| / n else 1;
    || (chunk.contexts != [] && |pieces| > 1 && ByDependencies(chunk, share, pieces))
    || (NoContextCut(chunk, share) && IsSplitByKind(chunk, n, pieces))
  }

  /** One piece per kind if there are several kinds, else an even cut. */
  ghost predicate IsSplitByKind(chunk: Chunk, n: nat, pieces: seq<Chunk>) {
    if SeveralKinds(chunk.changes)
    then OneKindEach(chunk, pieces) && multiset(Joined(pieces)) == multiset(chunk.changes)
    else IsEvenSplit(chunk, n, pieces)
  }

  /** Which way a chunk is cut: a prompt above half the chunk size evenly, any other as above. */
  ghost predicate IsStrategySplit(chunk: Chunk, promptSize: nat, half: nat, pieces: seq<Chunk>)
    requires half > 0
  {
    var n := SplitCount(promptSize, |chunk.changes|, half);
    if promptSize > half then IsEvenSplit(chunk, n, pieces) else IsSmallSplit(chunk, n, pieces)
  }

  /** Dependency contexts first, then types, then evenly; large chunks are always cut evenly. */
  method SplitForCapacity(chunk: Chunk, promptSize: nat, half: nat) returns (pieces: seq<Chunk>)
    requires half > 0
    ensures |chunk.changes| <= 1 ==> pieces == []
    ensures |chunk.changes| > 1 ==> IsCapacitySplit(chunk, pieces)
    ensures |chunk.changes| > 1 ==> IsStrategySplit(chunk, promptSize, half, pieces)
  {
    if |chunk.changes| <= 1 {
      return [];
    }
    var n := SplitCount(promptSize, |chunk.changes|, half);
    if promptSize > half {
      pieces := SplitEvenly(chunk, n);
      EvenIsCapacitySplit(chunk, n, pieces);
    } else {
      pieces := SplitSmall(chunk, n);
    }
  }

  method SplitSmall(chunk: Chunk, n: nat) returns (pieces: seq<Chunk>)
    requires n >= 2
    ensures IsCapacitySplit(chunk, pieces) && IsSmallSplit(chunk, n, pieces)
  {
    if chunk.contexts != [] {
      pieces := CutByContexts(chunk, Max(1, |chunk.changes| / n));
      if |pieces| > 1 {
        DependencyIsCapacitySplit(chunk, pieces);
        return;
      }
      assert pieces == [pieces[0]];
    }
    assert NoContextCut(chunk, Max(1, |chunk.changes| / n));
    pieces := SplitByTypeOrEvenly(chunk, n);
  }

  method SplitByTypeOrEvenly(chunk: Chunk, n: nat) returns (pieces: seq<Chunk>)
    requires n >= 2
    ensures IsCapacitySplit(chunk, pieces) && IsSplitByKind(chunk, n, pieces)
  {
    pieces := SplitByType(chunk);
    if |pieces| <= 1 {
      pieces := SplitEvenly(chunk, n);
      EvenIsCapacitySplit(chunk, n, pieces);
    }
  }

  method CutByContexts(chunk: Chunk, limit: nat) returns (pieces: seq<Chunk>)
    requires limit >= 1
    ensures pieces != [] && ByDependencies(chunk, limit, pieces) && IsDependencySplit(chunk, pieces)
  {
    ghost var parts, slices;
    pieces, parts, slices := ChunkByDependencies(chunk, limit);
  }
}
