/**
 Next-fit packing: items are taken in order, and a batch is closed exactly when the next item
 would push it over the limit. The same rule packs prompt batches, callee files and diff files.
 */
module NextFit {
  import opened Basics

  datatype Sized<T> = Sized(value: T, size: nat)

  function Load<T>(s: seq<Sized<T>>): nat {
    if s == [] then 0 else s[0].size + Load(s[1..])
  }

  function Concat<T>(parts: seq<seq<T>>): seq<T> {
    if parts == [] then [] else parts[0] + Concat(parts[1..])
  }

  /** A batch starts at cost `base` and may hold one item or whatever stays within the limit. */
  ghost predicate Fits<T>(base: nat, limit: int, s: seq<Sized<T>>) {
    base + Load(s) <= limit
  }

  ghost predicate IsNextFit<T>(base: nat, limit: int, items: seq<Sized<T>>, batches: seq<seq<Sized<T>>>) {
    && Concat(batches) == items
    && (forall i :: 0 <= i < |batches| ==> batches[i] != [] && (|batches[i]| == 1 || Fits(base, limit, batches[i])))
    && (forall i :: 0 < i < |batches| ==> !Fits(base, limit, batches[i - 1] + [batches[i][0]]))
  }

  lemma {:induction false} LoadConcat<T>(s: seq<Sized<T>>, t: seq<Sized<T>>)
    ensures Load(s + t) == Load(s) + Load(t)
  {
    if s == [] {
      JoinEmpty(t);
    } else {
      TailOfJoin(s, t);
      LoadConcat(s[1..], t);
    }
  }

  lemma {:induction false} ConcatAppend<T>(parts: seq<seq<T>>, p: seq<T>)
    ensures Concat(parts + [p]) == Concat(parts) + p
  {
    if parts == [] {
      assert parts + [p] == [p] && [p][1..] == [];
    } else {
      TailOfJoin(parts, [p]);
      ConcatAppend(parts[1..], p);
    }
  }

  lemma {:induction false} ConcatLength<T>(parts: seq<seq<T>>, i: nat)
    requires i < |parts| && forall j :: 0 <= j < |parts| ==> parts[j] != []
    ensures |parts[i]| + |parts| - 1 <= |Concat(parts)|
  {
    var rest := parts[1..];
    assert forall j :: 0 <= j < |rest| ==> rest[j] == parts[j + 1];
    if i > 0 {
      ConcatLength(rest, i - 1);
    } else if rest != [] {
      ConcatLength(rest, 0);
    }
  }

  lemma {:induction false} OpenBatch<T>(base: nat, limit: int, items: seq<Sized<T>>, closed: seq<seq<Sized<T>>>,
                                        x: Sized<T>)
    requires IsNextFit(base, limit, items, closed)
    requires closed != [] ==> !Fits(base, limit, closed[|closed| - 1] + [x])
    ensures IsNextFit(base, limit, items + [x], closed + [[x]])
  {
    ConcatAppend(closed, [x]);
  }

  lemma {:induction false} ExtendBatch<T>(base: nat, limit: int, items: seq<Sized<T>>, closed: seq<seq<Sized<T>>>,
                       current: seq<Sized<T>>, x: Sized<T>)
    requires current != [] && IsNextFit(base, limit, items, closed + [current])
    requires Fits(base, limit, current + [x])
    ensures IsNextFit(base, limit, items + [x], closed + [current + [x]])
  {
    ConcatAppend(closed, current);
    ConcatAppend(closed, current + [x]);
    var a, b := closed + [current], closed + [current + [x]];
    assert Concat(b) == items + [x];
    forall i | 0 <= i < |b|
      ensures b[i] != [] && (|b[i]| == 1 || Fits(base, limit, b[i])) && b[i][0] == a[i][0]
    {
      assert a[i] != [];
      assert i < |closed| ==> b[i] == a[i];
    }
    forall i | 0 < i < |b| ensures !Fits(base, limit, b[i - 1] + [b[i][0]]) {
      assert b[i - 1] == a[i - 1];
      assert !Fits(base, limit, a[i - 1] + [a[i][0]]);
    }
  }

  /** Batches closed so far and the one being filled, which is empty only before the first item. */
  ghost predicate Packing<T>(base: nat, limit: int, items: seq<Sized<T>>, closed: seq<seq<Sized<T>>>,
                             current: seq<Sized<T>>) {
    && IsNextFit(base, limit, items, if current == [] then closed else closed + [current])
    && (current == [] ==> closed == [] && items == [])
  }

  /** One more item: it opens a new batch if the current one would overflow, else it joins it. */
  lemma {:induction false} PackNext<T>(base: nat, limit: int, items: seq<Sized<T>>, closed: seq<seq<Sized<T>>>,
                                       current: seq<Sized<T>>,
                    x: Sized<T>)
    requires Packing(base, limit, items, closed, current)
    ensures if current != [] && base + Load(current) + x.size > limit
            then Packing(base, limit, items + [x], closed + [current], [x])
            else Packing(base, limit, items + [x], closed, current + [x])
  {
    LoadConcat(current, [x]);
    if current == [] {
      OpenBatch(base, limit, items, closed, x);
      JoinEmpty([x]);
    } else if base + Load(current) + x.size > limit {
      OpenBatch(base, limit, items, closed + [current], x);
    } else {
      ExtendBatch(base, limit, items, closed, current, x);
    }
  }

  /** The packing loop. */
  method Pack<T>(base: nat, limit: int, items: seq<Sized<T>>) returns (batches: seq<seq<Sized<T>>>)
    ensures IsNextFit(base, limit, items, batches)
  {
    batches := [];
    var current, cost := [], base;
    for i := 0 to |items|
      invariant Packing(base, limit, items[..i], batches, current)
      invariant cost == base + Load(current)
    {
      var x := items[i];
      TakeNext(items, i);
      PackNext(base, limit, items[..i], batches, current, x);
      LoadConcat(current, [x]);
      if current != [] && cost + x.size > limit {
        batches := batches + [current];
        current, cost := [], base;
      }
      JoinEmpty([x]);
      current, cost := current + [x], cost + x.size;
    }
    TakeAll(items);
    if current != [] {
      batches := batches + [current];
    }
  }

  // ---------- What next-fit promises ----------

  lemma {:induction false} LoadPrefix<T>(s: seq<Sized<T>>, n: nat)
    requires n <= |s|
    ensures Load(s[..n]) <= Load(s)
  {
    assert s == s[..n] + s[n..];
    LoadConcat(s[..n], s[n..]);
  }

  lemma {:induction false} Tail<T>(base: nat, limit: int, items: seq<Sized<T>>, batches: seq<seq<Sized<T>>>)
    requires IsNextFit(base, limit, items, batches) && batches != []
    ensures |batches[0]| <= |items| && items[..|batches[0]|] == batches[0]
    ensures IsNextFit(base, limit, items[|batches[0]|..], batches[1..])
  {
    var rest := batches[1..];
    forall i | 0 < i < |rest| ensures !Fits(base, limit, rest[i - 1] + [rest[i][0]]) {
      assert rest[i] == batches[i + 1] && rest[i - 1] == batches[i];
      assert !Fits(base, limit, batches[i + 1 - 1] + [batches[i + 1][0]]);
    }
  }

  /** A prefix of the items that fits is no longer than the first batch. */
  lemma {:induction false} FirstBatchIsLongest<T>(base: nat, limit: int, items: seq<Sized<T>>,
                                                  batches: seq<seq<Sized<T>>>, m: nat)
    requires IsNextFit(base, limit, items, batches) && batches != []
    requires m <= |items| && Fits(base, limit, items[..m])
    ensures m <= |batches[0]|
  {
    var n := |batches[0]|;
    Tail(base, limit, items, batches);
    if n < |items| {
      assert |batches| > 1;
      Tail(base, limit, items[n..], batches[1..]);
      assert batches[1][0] == items[n..][0];
      assert !Fits(base, limit, batches[1 - 1] + [batches[1][0]]);
      assert items[..n + 1] == batches[0] + [items[n]];
      if n < m {
        assert items[..m][..n + 1] == items[..n + 1];
        LoadPrefix(items[..m], n + 1);
      }
    }
  }

  /**
   No way of cutting a longer sequence, of which the items are the end, into admissible parts
   needs fewer parts than next-fit needs batches.
   */
  lemma {:induction false} FewestFromSuffix<T>(base: nat, limit: int, items: seq<Sized<T>>,
                                               batches: seq<seq<Sized<T>>>, pre: seq<Sized<T>>,
                                               parts: seq<seq<Sized<T>>>)
    requires IsNextFit(base, limit, items, batches)
    requires Concat(parts) == pre + items
    requires forall i :: 0 <= i < |parts| ==> |parts[i]| == 1 || Fits(base, limit, parts[i])
    ensures |batches| <= |parts|
    decreases |parts|
  {
    if batches != [] {
      Tail(base, limit, items, batches);
      assert parts != [];
      var p := parts[0];
      if |p| <= |pre| {
        assert Concat(parts[1..]) == Concat(parts)[|p|..] == pre[|p|..] + items;
        FewestFromSuffix(base, limit, items, batches, pre[|p|..], parts[1..]);
      } else {
        var m, n := |p| - |pre|, |batches[0]|;
        assert p == (pre + items)[..|p|];
        assert p == pre + items[..m];
        LoadConcat(pre, items[..m]);
        if m > 1 {
          FirstBatchIsLongest(base, limit, items, batches, m);
        }
        assert Concat(parts[1..]) == (pre + items)[|p|..] == items[m..] == items[m..n] + items[n..];
        FewestFromSuffix(base, limit, items[n..], batches[1..], items[m..n], parts[1..]);
      }
    }
  }

  /** Next-fit uses the fewest batches of any partition into consecutive parts that fit or hold one item. */
  lemma {:induction false} Fewest<T>(base: nat, limit: int, items: seq<Sized<T>>, batches: seq<seq<Sized<T>>>,
                                     parts: seq<seq<Sized<T>>>)
    requires IsNextFit(base, limit, items, batches)
    requires Concat(parts) == items
    requires forall i :: 0 <= i < |parts| ==> |parts[i]| == 1 || Fits(base, limit, parts[i])
    ensures |batches| <= |parts|
  {
    JoinEmpty(items);
    FewestFromSuffix(base, limit, items, batches, [], parts);
  }

  lemma {:induction false} FirstBatchNoLonger<T>(base: nat, limit: int, items: seq<Sized<T>>, a: seq<seq<Sized<T>>>,
                                                 b: seq<seq<Sized<T>>>)
    requires IsNextFit(base, limit, items, a) && IsNextFit(base, limit, items, b)
    requires a != [] && b != []
    ensures |b[0]| <= |a[0]|
  {
    Tail(base, limit, items, b);
    if |b[0]| > 1 {
      FirstBatchIsLongest(base, limit, items, a, |b[0]|);
    }
  }

  /** The next-fit partition is unique. */
  lemma {:induction false} NextFitUnique<T>(base: nat, limit: int, items: seq<Sized<T>>,
                                            a: seq<seq<Sized<T>>>, b: seq<seq<Sized<T>>>)
    requires IsNextFit(base, limit, items, a) && IsNextFit(base, limit, items, b)
    ensures a == b
    decreases |a|
  {
    if a != [] && b != [] {
      FirstBatchNoLonger(base, limit, items, a, b);
      FirstBatchNoLonger(base, limit, items, b, a);
      Tail(base, limit, items, a);
      Tail(base, limit, items, b);
      NextFitUnique(base, limit, items[|a[0]|..], a[1..], b[1..]);
      assert a == [a[0]] + a[1..] && b == [b[0]] + b[1..];
    }
  }

  /** Packing a batch again leaves it whole. */
  lemma {:induction false} RepackBatch<T>(base: nat, limit: int, items: seq<Sized<T>>, batches: seq<seq<Sized<T>>>,
                                          i: nat,
                       again: seq<seq<Sized<T>>>)
    requires IsNextFit(base, limit, items, batches) && i < |batches|
    requires IsNextFit(base, limit, batches[i], again)
    ensures again == [batches[i]]
  {
    var whole := [batches[i]];
    assert whole[1..] == [];
    assert Concat(whole) == batches[i] + [];
    assert IsNextFit(base, limit, batches[i], whole);
    NextFitUnique(base, limit, batches[i], again, whole);
  }

  /** Neighbouring batches together exceed the limit, so m batches weigh more than floor(m / 2) limits. */
  lemma {:induction false} PairsExceedLimit<T>(limit: int, items: seq<Sized<T>>, batches: seq<seq<Sized<T>>>)
    requires limit >= 0 && IsNextFit(0, limit, items, batches)
    ensures |batches| >= 2 ==> |batches| / 2 * limit < Load(items)
    decreases |batches|
  {
    if |batches| >= 2 {
      var rest := FirstPair(limit, items, batches);
      PairsExceedLimit(limit, rest, batches[2..]);
      HalfPlusOne(|batches|, limit);
    }
  }

  lemma {:induction false} HalfPlusOne(m: nat, limit: int)
    requires m >= 2
    ensures m / 2 * limit == (m - 2) / 2 * limit + limit
  {
    assert m / 2 == (m - 2) / 2 + 1;
  }

  /** The first two batches outweigh the limit; the others pack what is left. */
  lemma {:induction false} FirstPair<T>(limit: int, items: seq<Sized<T>>,
                                        batches: seq<seq<Sized<T>>>) returns (rest: seq<Sized<T>>)
    requires IsNextFit(0, limit, items, batches) && |batches| >= 2
    ensures IsNextFit(0, limit, rest, batches[2..])
    ensures Load(items) > limit + Load(rest)
  {
    var a, b := batches[0], batches[1];
    Tail(0, limit, items, batches);
    var tail := items[|a|..];
    Tail(0, limit, tail, batches[1..]);
    rest := tail[|b|..];
    assert batches[1..][1..] == batches[2..];
    assert items == a + tail && tail == b + rest;
    LoadConcat(a, tail);
    LoadConcat(b, rest);
    assert !Fits(0, limit, batches[1 - 1] + [batches[1][0]]);
    LoadConcat(a, [b[0]]);
    assert b == [b[0]] + b[1..];
  }
}
