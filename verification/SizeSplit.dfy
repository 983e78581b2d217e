/**
 Splitting a structured diff chunk by estimated size, and the classification recursion that
 falls back to it when the model reports that a prompt is too long.
 */
module SizeSplit {
  import opened Basics
  import opened NextFit

  /** A changed file: its path and the estimated tokens of its changes, overhead included. */
  type File = Sized<string>

  // ---------- Largest first ----------

  ghost predicate Descending(s: seq<File>) {
    forall i, j :: 0 <= i < j < |s| ==> s[i].size >= s[j].size
  }

  function InsertDown(x: File, s: seq<File>): (r: seq<File>)
    ensures multiset(r) == multiset(s) + multiset{x}
  {
    if s == [] || s[0].size <= x.size then [x] + s
    else
      assert s == [s[0]] + s[1..];
      [s[0]] + InsertDown(x, s[1..])
  }

  lemma {:induction false} DescendsFrom(x: File, s: seq<File>)
    requires Descending(s) && forall j :: 0 <= j < |s| ==> s[j].size <= x.size
    ensures Descending([x] + s)
  {
    var t := [x] + s;
    forall i, j | 0 <= i < j < |t| ensures t[i].size >= t[j].size {
      assert t[j] == s[j - 1] && (i > 0 ==> t[i] == s[i - 1]);
    }
  }

  lemma {:induction false} InsertDescends(x: File, s: seq<File>)
    requires Descending(s)
    ensures Descending(InsertDown(x, s))
  {
    if s != [] && s[0].size > x.size {
      var t := InsertDown(x, s[1..]);
      InsertDescends(x, s[1..]);
      forall j | 0 <= j < |t| ensures t[j].size <= s[0].size {
        assert t[j] in multiset(t);
        assert t[j] == x || t[j] in s[1..];
      }
      DescendsFrom(s[0], t);
    }
  }

  /** The stable sort by size, largest first. */
  function LargestFirst(s: seq<File>): (r: seq<File>)
    ensures multiset(r) == multiset(s)
    ensures Descending(r)
  {
    if s == [] then [] else
      assert s == [s[0]] + s[1..];
      InsertDescends(s[0], LargestFirst(s[1..]));
      InsertDown(s[0], LargestFirst(s[1..]))
  }

  // ---------- Packing ----------

  function Alone<T>(s: seq<T>): seq<seq<T>> {
    if s == [] then [] else Alone(s[..|s| - 1]) + [[s[|s| - 1]]]
  }

  lemma {:induction false} ConcatAlone<T>(s: seq<T>)
    ensures Concat(Alone(s)) == s
    ensures |Alone(s)| == |s| && forall i :: 0 <= i < |s| ==> Alone(s)[i] == [s[i]]
  {
    if s != [] {
      var n := |s| - 1;
      ConcatAlone(s[..n]);
      ConcatAppend(Alone(s[..n]), [s[n]]);
    }
  }

  lemma {:induction false} ConcatJoin<T>(a: seq<seq<T>>, b: seq<seq<T>>)
    ensures Concat(a + b) == Concat(a) + Concat(b)
  {
    if a == [] {
      JoinEmpty(b);
    } else {
      TailOfJoin(a, b);
      ConcatJoin(a[1..], b);
    }
  }

  lemma {:induction false} AloneAppend<T>(s: seq<T>, x: T)
    ensures Alone(s + [x]) == Alone(s) + [[x]]
  {
    assert (s + [x])[..|s|] == s;
  }

  ghost predicate Above(target: nat, s: seq<File>) {
    forall i :: 0 <= i < |s| ==> s[i].size > target
  }

  ghost predicate Within(target: nat, s: seq<File>) {
    forall i :: 0 <= i < |s| ==> s[i].size <= target
  }

  /** Files above the target, which lead the list, sit alone; the rest is packed next-fit. */
  ghost predicate IsPacking(target: nat, files: seq<File>, bins: seq<seq<File>>, big: seq<File>,
                            packed: seq<seq<File>>) {
    && files == big + Concat(packed)
    && Above(target, big) && Within(target, Concat(packed))
    && bins == Alone(big) + packed
    && IsNextFit(0, target, Concat(packed), packed)
  }

  ghost predicate BinsOf(target: nat, files: seq<File>, bins: seq<seq<File>>) {
    exists big, packed :: IsPacking(target, files, bins, big, packed)
  }

  /** The loop after `seen`: large files alone, then closed bins, then the bin being filled. */
  ghost predicate SplitState(target: nat, seen: seq<File>, bins: seq<seq<File>>, current: seq<File>,
                             big: seq<File>, rest: seq<File>, packed: seq<seq<File>>) {
    && seen == big + rest
    && Above(target, big) && Within(target, rest)
    && bins == Alone(big) + packed
    && Packing(0, target, rest, packed, current)
  }

  lemma {:induction false} AddLarge(target: nat, seen: seq<File>, bins: seq<seq<File>>, current: seq<File>,
                                    big: seq<File>, f: File)
    requires SplitState(target, seen, bins, current, big, [], []) && current == [] && f.size > target
    ensures SplitState(target, seen + [f], bins + [[f]], [], big + [f], [], [])
  {
    AloneAppend(big, f);
  }

  lemma {:induction false} AddSmall(target: nat, seen: seq<File>, bins: seq<seq<File>>, current: seq<File>,
                 big: seq<File>, rest: seq<File>, packed: seq<seq<File>>, f: File)
    requires SplitState(target, seen, bins, current, big, rest, packed) && f.size <= target
    ensures if current != [] && Load(current) + f.size > target
            then SplitState(target, seen + [f], bins + [current], [f], big, rest + [f], packed + [current])
            else SplitState(target, seen + [f], bins, current + [f], big, rest + [f], packed)
  {
    PackNext(0, target, rest, packed, current, f);
    JoinAssociates(big, rest, [f]);
    JoinAssociates(Alone(big), packed, [current]);
  }

  lemma {:induction false} Finish(target: nat, seen: seq<File>, bins: seq<seq<File>>, current: seq<File>,
               big: seq<File>, rest: seq<File>, packed: seq<seq<File>>)
    requires SplitState(target, seen, bins, current, big, rest, packed)
    ensures if current == [] then IsPacking(target, seen, bins, big, packed)
            else IsPacking(target, seen, bins + [current], big, packed + [current])
  {
  }

  /** A file within the target: close the current bin if it would overflow, then add the file. */
  method PlaceSmall(target: nat, ghost seen: seq<File>, bins0: seq<seq<File>>, current0: seq<File>, tokens0: nat,
                    ghost big: seq<File>, ghost rest: seq<File>, ghost packed0: seq<seq<File>>, f: File)
    returns (bins: seq<seq<File>>, current: seq<File>, tokens: nat, ghost packed: seq<seq<File>>)
    requires SplitState(target, seen, bins0, current0, big, rest, packed0)
    requires tokens0 == Load(current0) && f.size <= target
    ensures SplitState(target, seen + [f], bins, current, big, rest + [f], packed)
    ensures tokens == Load(current)
  {
    bins, current, tokens, packed := bins0, current0, tokens0, packed0;
    AddSmall(target, seen, bins, current, big, rest, packed, f);
    LoadConcat(current, [f]);
    if tokens + f.size > target && current != [] {
      bins, packed := bins + [current], packed + [current];
      current, tokens := [], 0;
    }
    JoinEmpty([f]);
    current, tokens := current + [f], tokens + f.size;
  }

  method PackBySize(target: nat, files: seq<File>)
    returns (bins: seq<seq<File>>, ghost big: seq<File>, ghost packed: seq<seq<File>>)
    requires Descending(files)
    ensures IsPacking(target, files, bins, big, packed)
  {
    bins, big, packed := [], [], [];
    var current, tokens := [], 0;
    ghost var rest: seq<File> := [];
    for i := 0 to |files|
      invariant SplitState(target, files[..i], bins, current, big, rest, packed)
      invariant tokens == Load(current)
    {
      if files[i].size > target {
        // Sorting put every file of this size first, so there is no bin to close before it.
        LargeComesFirst(target, files, i, bins, current, big, rest, packed);
        bins, big := bins + [[files[i]]], big + [files[i]];
      } else {
        bins, current, tokens, packed :=
          PlaceSmall(target, files[..i], bins, current, tokens, big, rest, packed, files[i]);
        rest := rest + [files[i]];
      }
      TakeNext(files, i);
    }
    TakeAll(files);
    Finish(target, files, bins, current, big, rest, packed);
    if current != [] {
      bins, packed := bins + [current], packed + [current];
    }
  }

  lemma {:induction false} LargeComesFirst(target: nat, files: seq<File>, i: nat, bins: seq<seq<File>>,
                                           current: seq<File>,
                        big: seq<File>, rest: seq<File>, packed: seq<seq<File>>)
    requires Descending(files) && i < |files| && files[i].size > target
    requires SplitState(target, files[..i], bins, current, big, rest, packed)
    ensures current == [] && rest == [] && packed == []
    ensures SplitState(target, files[..i] + [files[i]], bins + [[files[i]]], [], big + [files[i]], [], [])
  {
    NoSmallBefore(target, files, i, big, rest);
    NothingPacked(target, packed, current);
    AddLarge(target, files[..i], bins, current, big, files[i]);
  }

  lemma {:induction false} NothingPacked(target: nat, packed: seq<seq<File>>, current: seq<File>)
    requires Packing(0, target, [], packed, current)
    ensures packed == [] && current == []
  {
    if current != [] {
      ConcatAppend(packed, current);
    }
  }

  /** Largest first: no file within the target comes before one above it. */
  lemma {:induction false} NoSmallBefore(target: nat, files: seq<File>, i: nat, big: seq<File>, rest: seq<File>)
    requires Descending(files) && i < |files| && files[i].size > target
    requires files[..i] == big + rest && Within(target, rest)
    ensures rest == []
  {
    if rest != [] {
      SmallAfterSmall(target, files, i, big, rest);
    }
  }

  lemma {:induction false} SmallAfterSmall(target: nat, files: seq<File>, i: nat, big: seq<File>, rest: seq<File>)
    requires Descending(files) && i < |files|
    requires files[..i] == big + rest && Within(target, rest) && rest != []
    ensures files[i].size <= target
  {
    var j := |big|;
    assert files[j] == files[..i][j] == rest[0];
  }

  // ---------- The split ----------

  /** Every file goes to exactly one piece, no piece is empty. */
  ghost predicate IsSplit<T(!new)>(files: seq<T>, pieces: seq<seq<T>>) {
    && multiset(Concat(pieces)) == multiset(files)
    && forall i :: 0 <= i < |pieces| ==> pieces[i] != []
  }

  ghost predicate IsHalving<T>(files: seq<T>, pieces: seq<seq<T>>) {
    pieces == [files[..|files| / 2], files[|files| / 2..]]
  }

  /** The load of a list does not depend on its order. */
  lemma {:induction false} LoadInsert(x: File, s: seq<File>)
    ensures Load(InsertDown(x, s)) == x.size + Load(s)
  {
    if s == [] || s[0].size <= x.size {
      assert ([x] + s)[1..] == s;
    } else {
      var t := InsertDown(x, s[1..]);
      LoadInsert(x, s[1..]);
      assert ([s[0]] + t)[1..] == t;
    }
  }

  lemma {:induction false} LoadSorted(s: seq<File>)
    ensures Load(LargestFirst(s)) == Load(s)
  {
    if s != [] {
      LoadSorted(s[1..]);
      LoadInsert(s[0], LargestFirst(s[1..]));
    }
  }

  lemma {:induction false} LoadAtLeast(s: seq<File>, i: nat)
    requires i < |s|
    ensures s[i].size <= Load(s)
  {
    if i > 0 {
      LoadAtLeast(s[1..], i - 1);
    }
  }

  lemma {:induction false} ConcatOne<T>(s: seq<T>)
    ensures Concat([s]) == s
  {
    ConcatAppend([], s);
    JoinEmpty(s);
    JoinEmpty([s]);
  }

  /** A file above the target weighs too much alone, and next to another file it takes a second bin. */
  lemma {:induction false} LargeFile(target: nat, files: seq<File>, bins: seq<seq<File>>, big: seq<File>,
                                     packed: seq<seq<File>>)
    requires |files| >= 2 && IsPacking(target, files, bins, big, packed) && big != []
    ensures Load(files) > target && |bins| >= 2
  {
    ConcatAlone(big);
    LoadAtLeast(files, 0);
    assert files[0] == big[0];
    assert packed == [] ==> |big| >= 2;
  }

  /** Two or more files share a single bin exactly if all of them together stay within the target. */
  lemma {:induction false} OneBinIff(target: nat, files: seq<File>, bins: seq<seq<File>>, big: seq<File>,
                                     packed: seq<seq<File>>)
    requires |files| >= 2 && IsPacking(target, files, bins, big, packed)
    ensures |bins| <= 1 <==> Load(files) <= target
  {
    if big != [] {
      LargeFile(target, files, bins, big, packed);
    } else {
      JoinEmpty(packed);
      JoinEmpty(Concat(packed));
      if |packed| == 1 {
        ConcatOne(packed[0]);
        assert packed == [packed[0]];
        assert |packed[0]| == 1 || Fits(0, target, packed[0]);
      }
      assert packed != [];
      if Load(files) <= target {
        ConcatOne(files);
        Fewest(0, target, files, packed, [files]);
      }
    }
  }

  /**
   Size-aware splitting. With two or more files there are at least two pieces, so each is
   smaller than the chunk: halves if all files together stay within the target, else next-fit bins.
   */
  method SplitBySize(target: nat, files: seq<File>) returns (pieces: seq<seq<File>>)
    ensures IsSplit(files, pieces)
    ensures |files| >= 2 ==> |pieces| >= 2
    ensures |files| >= 2 ==> if Load(files) <= target then IsHalving(files, pieces)
                             else BinsOf(target, LargestFirst(files), pieces)
  {
    if files == [] {
      return [];
    }
    ghost var big, packed;
    pieces, big, packed := PackBySize(target, LargestFirst(files));
    PackingIsSplit(target, files, pieces, big, packed);
    if |files| >= 2 {
      SortedLength(files);
      LoadSorted(files);
      OneBinIff(target, LargestFirst(files), pieces, big, packed);
    }
    if |pieces| <= 1 {
      pieces := Halve(files);
    }
  }

  lemma {:induction false} SortedLength(files: seq<File>)
    ensures |LargestFirst(files)| == |files|
  {
    assert |multiset(LargestFirst(files))| == |multiset(files)|;
  }

  method Halve<T(!new)>(files: seq<T>) returns (pieces: seq<seq<T>>)
    requires files != []
    ensures IsSplit(files, pieces)
    ensures |files| >= 2 ==> IsHalving(files, pieces)
  {
    var half := if |files| / 2 == 0 then 1 else |files| / 2;
    var left, right := files[..half], files[half..];
    assert files == left + right;
    TwoParts(left, right);
    pieces := if right == [] then [left] else [left, right];
  }

  lemma {:induction false} TwoParts<T>(left: seq<T>, right: seq<T>)
    ensures Concat([left]) == left && Concat([left, right]) == left + right
  {
    assert [left][1..] == [] && [left, right][1..] == [right] && [right][1..] == [];
    assert Concat([right]) == right + [];
    assert Concat([left]) == left + [];
  }

  lemma {:induction false} PackingIsSplit(target: nat, files: seq<File>, bins: seq<seq<File>>, big: seq<File>,
                                          packed: seq<seq<File>>)
    requires IsPacking(target, LargestFirst(files), bins, big, packed)
    ensures IsSplit(files, bins)
  {
    ConcatJoin(Alone(big), packed);
    ConcatAlone(big);
    assert Concat(bins) == LargestFirst(files);
    forall i | 0 <= i < |bins| ensures bins[i] != [] {
      if i < |big| {
        assert bins[i] == Alone(big)[i] == [big[i]];
      } else {
        assert bins[i] == packed[i - |big|];
      }
    }
  }

  /** Packed bins stay within the target, and m of them outweigh floor(m / 2) targets. */
  lemma {:induction false} PackedBins(target: nat, files: seq<File>, bins: seq<seq<File>>, big: seq<File>,
                                      packed: seq<seq<File>>)
    requires IsPacking(target, files, bins, big, packed)
    ensures forall i :: 0 <= i < |bins| && |bins[i]| > 1 ==> Load(bins[i]) <= target
    ensures |packed| >= 2 ==> |packed| / 2 * target < Load(files)
  {
    ConcatAlone(big);
    forall i | 0 <= i < |bins| && |bins[i]| > 1 ensures Load(bins[i]) <= target {
      assert i >= |big|;
      assert bins[i] == packed[i - |big|];
      assert Fits(0, target, bins[i]);
    }
    PairsExceedLimit(target, Concat(packed), packed);
    LoadConcat(big, Concat(packed));
  }

  // ---------- The classification recursion ----------

  /** A chunk with the file count written in it, and whether it carries caller contexts. */
  datatype Chunk = Chunk(files: seq<File>, declared: nat, hasCallers: bool)

  /** What one model call comes back with. */
  datatype Reply = Accepted | TooLong | OtherError

  /** Where a run of files ended up: classified, or given up on. */
  datatype Leaf = Leaf(files: seq<File>, reply: Reply)

  function LeafFiles(leaves: seq<Leaf>): seq<File> {
    if leaves == [] then [] else leaves[0].files + LeafFiles(leaves[1..])
  }

  lemma {:induction false} LeafFilesJoin(a: seq<Leaf>, b: seq<Leaf>)
    ensures LeafFiles(a + b) == LeafFiles(a) + LeafFiles(b)
  {
    if a == [] {
      JoinEmpty(b);
    } else {
      TailOfJoin(a, b);
      LeafFilesJoin(a[1..], b);
    }
  }

  lemma {:induction false} OneLeaf(l: Leaf)
    ensures LeafFiles([l]) == l.files
  {
    assert [l][1..] == [];
  }

  ghost predicate WellCounted(chunk: Chunk) {
    chunk.declared == |chunk.files| > 0
  }

  /** How many model calls a chunk can cost. */
  ghost function Budget(chunk: Chunk): nat {
    (if chunk.hasCallers then 1 else 0) +
    if WellCounted(chunk) then 2 * |chunk.files| - 1 else 2 * |chunk.files| + 1
  }

  ghost predicate OnlyLoneTooLong(leaves: seq<Leaf>) {
    forall i :: 0 <= i < |leaves| && leaves[i].reply.TooLong? ==> |leaves[i].files| == 1
  }

  /** Each file ends in exactly one leaf, and only a lone file is given up as too long. */
  ghost predicate Settled(chunk: Chunk, leaves: seq<Leaf>) {
    && multiset(LeafFiles(leaves)) == multiset(chunk.files)
    && (WellCounted(chunk) ==> OnlyLoneTooLong(leaves))
  }

  // ---------- The calls, one by one ----------

  /** What a call is about: the files it shows, the count written in the chunk, and whether it asks about callers. */
  datatype Asked = Asked(files: seq<File>, declared: nat, callers: bool)

  /** One model call, and what has to be asked instead if it settles nothing. */
  datatype Turn = Turn(asked: Asked, instead: seq<Asked>)

  /** A call settles its files unless it is too long and there is something else to try. */
  ghost predicate Settles(asked: Asked, reply: Reply) {
    !reply.TooLong? || (!asked.callers && (asked.declared <= 1 || asked.files == []))
  }

  /** One leaf for each call that settles its files, in order. */
  ghost function LeavesOf(oracle: nat -> Reply, start: nat, turns: seq<Turn>): seq<Leaf>
    decreases |turns|
  {
    if turns == [] then [] else OwnLeaf(oracle, start, turns[0]) + LeavesOf(oracle, start + 1, turns[1..])
  }

  ghost function OwnLeaf(oracle: nat -> Reply, k: nat, turn: Turn): seq<Leaf> {
    if Settles(turn.asked, oracle(k)) then [Leaf(turn.asked.files, oracle(k))] else []
  }

  /** How a chunk is split by size. */
  ghost predicate IsSizeSplit(target: nat, files: seq<File>, pieces: seq<seq<File>>) {
    && IsSplit(files, pieces)
    && (|files| >= 2 ==> if Load(files) <= target then IsHalving(files, pieces)
                         else BinsOf(target, LargestFirst(files), pieces))
  }

  ghost function Todos(pieces: seq<seq<File>>): seq<Asked> {
    seq(|pieces|, i requires 0 <= i < |pieces| => Asked(pieces[i], |pieces[i]|, false))
  }

  /** After a call that settles nothing: ask again without callers, or ask about the pieces. */
  ghost predicate TriesNext(target: nat, turn: Turn) {
    if turn.asked.callers then turn.instead == [turn.asked.(callers := false)]
    else exists pieces :: IsSizeSplit(target, turn.asked.files, pieces) && turn.instead == Todos(pieces)
  }

  /** A call that settles its files leads to nothing else. */
  ghost predicate LeadsOn(target: nat, turn: Turn, reply: Reply) {
    if Settles(turn.asked, reply) then turn.instead == [] else TriesNext(target, turn)
  }

  /** For each call whether it leads to what its reply asks for. */
  ghost function Rules(target: nat, oracle: nat -> Reply): (nat, Turn) -> bool {
    (k: nat, turn: Turn) => LeadsOn(target, turn, oracle(k))
  }

  /** The calls work off what is to be asked, in order; what a call leads to comes before the rest. */
  ghost predicate WorksOff(rules: (nat, Turn) -> bool, start: nat, todos: seq<Asked>, turns: seq<Turn>)
    decreases |turns|
  {
    if turns == [] then todos == [] else
      && todos != [] && turns[0].asked == todos[0] && rules(start, turns[0])
      && WorksOff(rules, start + 1, turns[0].instead + todos[1..], turns[1..])
  }

  /** The leaves and the number of calls are those of the turns. */
  ghost predicate Told(oracle: nat -> Reply, start: nat, turns: seq<Turn>, leaves: seq<Leaf>, calls: nat) {
    calls == start + |turns| && leaves == LeavesOf(oracle, start, turns)
  }

  lemma {:induction false} LeavesJoin(oracle: nat -> Reply, start: nat, a: seq<Turn>, b: seq<Turn>)
    ensures LeavesOf(oracle, start, a + b) == LeavesOf(oracle, start, a) + LeavesOf(oracle, start + |a|, b)
    decreases |a|
  {
    if a == [] {
      JoinEmpty(b);
      JoinEmpty(LeavesOf(oracle, start, b));
    } else {
      TailOfJoin(a, b);
      LeavesJoin(oracle, start + 1, a[1..], b);
      JoinAssociates(OwnLeaf(oracle, start, a[0]), LeavesOf(oracle, start + 1, a[1..]),
                     LeavesOf(oracle, start + |a|, b));
    }
  }

  lemma {:induction false} LeafOfOne(oracle: nat -> Reply, start: nat, turn: Turn)
    ensures LeavesOf(oracle, start, [turn]) == OwnLeaf(oracle, start, turn)
  {
    assert [turn][1..] == [];
    JoinEmpty(OwnLeaf(oracle, start, turn));
  }

  /** First work off one list, then another. */
  lemma {:induction false} WorksOffJoin(rules: (nat, Turn) -> bool, start: nat, xs: seq<Asked>, ys: seq<Asked>,
                                        a: seq<Turn>, b: seq<Turn>)
    requires WorksOff(rules, start, xs, a) && WorksOff(rules, start + |a|, ys, b)
    ensures WorksOff(rules, start, xs + ys, a + b)
    decreases |a|
  {
    if a == [] {
      JoinEmpty(ys);
      JoinEmpty(b);
    } else {
      TailOfJoin(a, b);
      TailOfJoin(xs, ys);
      WorksOffJoin(rules, start + 1, a[0].instead + xs[1..], ys, a[1..], b);
      JoinAssociates(a[0].instead, xs[1..], ys);
    }
  }

  lemma {:induction false} OneTurn(rules: (nat, Turn) -> bool, start: nat, asked: Asked)
    requires rules(start, Turn(asked, []))
    ensures WorksOff(rules, start, [asked], [Turn(asked, [])])
  {
    assert [Turn(asked, [])][1..] == [] && [asked][1..] == [];
    JoinEmpty([asked][1..]);
    assert WorksOff(rules, start + 1, [], []);
  }

  /** One call, and then what it leads to. */
  lemma {:induction false} TurnThen(rules: (nat, Turn) -> bool, start: nat, turn: Turn, turns: seq<Turn>)
    requires rules(start, turn) && WorksOff(rules, start + 1, turn.instead, turns)
    ensures WorksOff(rules, start, [turn.asked], [turn] + turns)
  {
    assert ([turn] + turns)[1..] == turns && [turn.asked][1..] == [];
    JoinEmpty(turn.instead);
  }

  lemma {:induction false} NoLeafThen(oracle: nat -> Reply, start: nat, turn: Turn, turns: seq<Turn>)
    requires !Settles(turn.asked, oracle(start))
    ensures LeavesOf(oracle, start, [turn] + turns) == LeavesOf(oracle, start + 1, turns)
  {
    assert ([turn] + turns)[1..] == turns;
    JoinEmpty(LeavesOf(oracle, start + 1, turns));
  }

  /** The whole run for one chunk: the calls work it off, and the leaves are those of the calls. */
  ghost predicate IsRunFor(target: nat, oracle: nat -> Reply, start: nat, chunk: Chunk, turns: seq<Turn>,
                           leaves: seq<Leaf>, calls: nat) {
    && WorksOff(Rules(target, oracle), start, [Asked(chunk.files, chunk.declared, chunk.hasCallers)], turns)
    && Told(oracle, start, turns, leaves, calls)
  }

  method ClassifyWithFallback(chunk: Chunk, target: nat, oracle: nat -> Reply, start: nat)
    returns (leaves: seq<Leaf>, calls: nat, ghost turns: seq<Turn>)
    ensures Settled(chunk, leaves)
    ensures start <= calls <= start + Budget(chunk)
    ensures chunk.declared == 0 ==> calls == start && leaves == [Leaf(chunk.files, OtherError)]
    ensures chunk.declared > 0 ==> IsRunFor(target, oracle, start, chunk, turns, leaves, calls)
    decreases |chunk.files|, if WellCounted(chunk) then 0 else 1, 3
  {
    if chunk.declared == 0 {
      OneLeaf(Leaf(chunk.files, OtherError));
      return [Leaf(chunk.files, OtherError)], start, [];
    }
    if chunk.hasCallers {
      leaves, calls, turns := ClassifyWithDependencies(chunk, target, oracle, start);
    } else {
      leaves, calls, turns := ClassifyRegular(chunk, target, oracle, start);
    }
  }

  method ClassifyWithDependencies(chunk: Chunk, target: nat, oracle: nat -> Reply, start: nat)
    returns (leaves: seq<Leaf>, calls: nat, ghost turns: seq<Turn>)
    requires chunk.hasCallers && chunk.declared > 0
    ensures Settled(chunk, leaves)
    ensures start <= calls <= start + Budget(chunk)
    ensures IsRunFor(target, oracle, start, chunk, turns, leaves, calls)
    decreases |chunk.files|, if WellCounted(chunk) then 0 else 1, 2
  {
    var reply := oracle(start);
    ghost var asked := Asked(chunk.files, chunk.declared, true);
    if reply.TooLong? {
      leaves, calls, turns := ClassifyRegular(chunk, target, oracle, start + 1);
      ghost var turn := Turn(asked, [asked.(callers := false)]);
      TurnThen(Rules(target, oracle), start, turn, turns);
      NoLeafThen(oracle, start, turn, turns);
      turns := [turn] + turns;
    } else {
      OneLeaf(Leaf(chunk.files, reply));
      OneTurn(Rules(target, oracle), start, asked);
      LeafOfOne(oracle, start, Turn(asked, []));
      leaves, calls, turns := [Leaf(chunk.files, reply)], start + 1, [Turn(asked, [])];
    }
  }

  method ClassifyRegular(chunk: Chunk, target: nat, oracle: nat -> Reply, start: nat)
    returns (leaves: seq<Leaf>, calls: nat, ghost turns: seq<Turn>)
    requires chunk.declared > 0
    ensures Settled(chunk, leaves)
    ensures start <= calls <= start + Budget(chunk.(hasCallers := false))
    ensures IsRunFor(target, oracle, start, chunk.(hasCallers := false), turns, leaves, calls)
    decreases |chunk.files|, if WellCounted(chunk) then 0 else 1, 1
  {
    var reply := oracle(start);
    ghost var asked := Asked(chunk.files, chunk.declared, false);
    if reply.TooLong? && chunk.declared > 1 {
      var pieces := SplitBySize(target, chunk.files);
      PiecesOfSome(chunk.files, pieces);
      if pieces != [] {
        leaves, calls, turns := ClassifyPieces(chunk, pieces, target, oracle, start + 1);
        RunOfPieces(target, oracle, start, asked, pieces, turns);
        turns := [Turn(asked, Todos(pieces))] + turns;
        return;
      }
    }
    leaves, calls, turns := [Leaf(chunk.files, reply)], start + 1, [Turn(asked, [])];
    OneLeaf(Leaf(chunk.files, reply));
    LeafOfOne(oracle, start, Turn(asked, []));
    OneTurn(Rules(target, oracle), start, asked);
  }

  /** A call that is too long, and then the calls about the pieces. */
  lemma {:induction false} RunOfPieces(target: nat, oracle: nat -> Reply, start: nat, asked: Asked,
                                       pieces: seq<seq<File>>, turns: seq<Turn>)
    requires oracle(start).TooLong? && asked.declared > 1 && !asked.callers && asked.files != []
    requires IsSizeSplit(target, asked.files, pieces)
    requires WorksOff(Rules(target, oracle), start + 1, Todos(pieces), turns)
    ensures WorksOff(Rules(target, oracle), start, [asked], [Turn(asked, Todos(pieces))] + turns)
    ensures LeavesOf(oracle, start, [Turn(asked, Todos(pieces))] + turns) == LeavesOf(oracle, start + 1, turns)
  {
    assert TriesNext(target, Turn(asked, Todos(pieces)));
    TurnThen(Rules(target, oracle), start, Turn(asked, Todos(pieces)), turns);
    NoLeafThen(oracle, start, Turn(asked, Todos(pieces)), turns);
  }

  lemma {:induction false} PiecesOfSome(files: seq<File>, pieces: seq<seq<File>>)
    requires IsSplit(files, pieces)
    ensures pieces == [] <==> files == []
  {
    SameLength(Concat(pieces), files);
    if pieces != [] {
      ConcatLength(pieces, 0);
    }
  }

  lemma {:induction false} PieceIsSmaller(files: seq<File>, pieces: seq<seq<File>>, i: nat)
    requires IsSplit(files, pieces) && i < |pieces|
    ensures |pieces[i]| + |pieces| - 1 <= |files|
  {
    ConcatLength(pieces, i);
    SameLength(Concat(pieces), files);
  }

  /** The files of the first i pieces are settled, within their budget. */
  ghost predicate SettledSoFar(pieces: seq<seq<File>>, i: nat, leaves: seq<Leaf>, start: nat, calls: nat)
    requires i <= |pieces|
  {
    && multiset(LeafFiles(leaves)) == multiset(Concat(pieces[..i])) && OnlyLoneTooLong(leaves)
    && start <= calls <= start + 2 * |Concat(pieces[..i])| - i
  }

  lemma {:induction false} SettledNext(pieces: seq<seq<File>>, i: nat, leaves: seq<Leaf>, start: nat, calls: nat,
                                       more: seq<Leaf>,
                    calls': nat)
    requires i < |pieces| && pieces[i] != [] && SettledSoFar(pieces, i, leaves, start, calls)
    requires Settled(Chunk(pieces[i], |pieces[i]|, false), more)
    requires calls <= calls' <= calls + Budget(Chunk(pieces[i], |pieces[i]|, false))
    ensures SettledSoFar(pieces, i + 1, leaves + more, start, calls')
  {
    SettleNext(leaves, more, pieces, i);
  }

  /** The calls for the first i pieces. */
  ghost predicate WorkedSoFar(target: nat, oracle: nat -> Reply, start: nat, pieces: seq<seq<File>>, i: nat,
                              turns: seq<Turn>, leaves: seq<Leaf>, calls: nat)
    requires i <= |pieces|
  {
    WorksOff(Rules(target, oracle), start, Todos(pieces[..i]), turns) && Told(oracle, start, turns, leaves, calls)
  }

  lemma {:induction false} TodosNext(pieces: seq<seq<File>>, i: nat)
    requires i < |pieces|
    ensures Todos(pieces[..i + 1]) == Todos(pieces[..i]) + [Asked(pieces[i], |pieces[i]|, false)]
  {
  }

  lemma {:induction false} WorkedNext(target: nat, oracle: nat -> Reply, start: nat, pieces: seq<seq<File>>, i: nat,
                                      turns: seq<Turn>, leaves: seq<Leaf>, calls: nat, part: seq<Turn>,
                                      more: seq<Leaf>, calls': nat)
    requires i < |pieces| && WorkedSoFar(target, oracle, start, pieces, i, turns, leaves, calls)
    requires IsRunFor(target, oracle, calls, Chunk(pieces[i], |pieces[i]|, false), part, more, calls')
    ensures WorkedSoFar(target, oracle, start, pieces, i + 1, turns + part, leaves + more, calls')
  {
    TodosNext(pieces, i);
    WorksOffJoin(Rules(target, oracle), start, Todos(pieces[..i]), [Asked(pieces[i], |pieces[i]|, false)], turns, part);
    LeavesJoin(oracle, start, turns, part);
  }

  /** The recursive calls, one per piece; their budgets add up to less than the chunk's. */
  method ClassifyPieces(chunk: Chunk, pieces: seq<seq<File>>, target: nat, oracle: nat -> Reply, start: nat)
    returns (leaves: seq<Leaf>, calls: nat, ghost turns: seq<Turn>)
    requires chunk.declared > 1 && IsSplit(chunk.files, pieces)
    requires pieces != [] && (|chunk.files| >= 2 ==> |pieces| >= 2)
    ensures Settled(chunk, leaves)
    ensures start <= calls <= start + 2 * |chunk.files| - |pieces|
    ensures WorksOff(Rules(target, oracle), start, Todos(pieces), turns) && Told(oracle, start, turns, leaves, calls)
    decreases |chunk.files|, if WellCounted(chunk) then 0 else 1, 0
  {
    leaves, calls, turns := [], start, [];
    for i := 0 to |pieces|
      invariant SettledSoFar(pieces, i, leaves, start, calls)
      invariant WorkedSoFar(target, oracle, start, pieces, i, turns, leaves, calls)
    {
      PieceIsSmaller(chunk.files, pieces, i);
      var more, next;
      ghost var part;
      more, next, part := ClassifyWithFallback(Chunk(pieces[i], |pieces[i]|, false), target, oracle, calls);
      SettledNext(pieces, i, leaves, start, calls, more, next);
      WorkedNext(target, oracle, start, pieces, i, turns, leaves, calls, part, more, next);
      leaves, calls, turns := leaves + more, next, turns + part;
    }
    TakeAll(pieces);
    SameLength(Concat(pieces), chunk.files);
  }

  lemma {:induction false} SameLength<T>(s: seq<T>, t: seq<T>)
    requires multiset(s) == multiset(t)
    ensures |s| == |t|
  {
    assert |s| == |multiset(s)| && |t| == |multiset(t)|;
  }

  lemma {:induction false} SettleNext(leaves: seq<Leaf>, more: seq<Leaf>, pieces: seq<seq<File>>, i: nat)
    requires i < |pieces|
    requires multiset(LeafFiles(leaves)) == multiset(Concat(pieces[..i]))
    requires multiset(LeafFiles(more)) == multiset(pieces[i])
    ensures multiset(LeafFiles(leaves + more)) == multiset(Concat(pieces[..i + 1]))
    ensures |Concat(pieces[..i + 1])| == |Concat(pieces[..i])| + |pieces[i]|
  {
    LeafFilesJoin(leaves, more);
    TakeNext(pieces, i);
    ConcatAppend(pieces[..i], pieces[i]);
  }
}
