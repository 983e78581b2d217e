/** Fitting retrieved memory matches into a prompt: sizes are those of the serialised lists. */
module MemoryBudget {
  import opened Basics

  /** A match, as its own JSON text. */
  type Match = string

  function Join(items: seq<Match>): string {
    if items == [] then "" else if |items| == 1 then items[0] else items[0] + ", " + Join(items[1..])
  }

  /** The JSON text of a list. */
  function Dump(items: seq<Match>): string {
    "[" + Join(items) + "]"
  }

  function EstimateSize(items: seq<Match>): nat {
    if items == [] then 0 else |Dump(items)|
  }

  /** What the running sum adds up: each item alone, brackets included. */
  function RunningSum(items: seq<Match>): nat {
    if items == [] then 0 else RunningSum(items[..|items| - 1]) + EstimateSize([items[|items| - 1]])
  }

  lemma {:induction false} JoinAppend(items: seq<Match>, x: Match)
    requires items != []
    ensures |Join(items + [x])| == |Join(items)| + |x| + 2
  {
    if |items| == 1 {
      assert (items + [x])[1..] == [x];
    } else {
      TailOfJoin(items, [x]);
      JoinAppend(items[1..], x);
    }
  }

  /** The separators of a list cost what the brackets of its items would: the sum is exact. */
  lemma {:induction false} RunningSumIsExact(items: seq<Match>)
    ensures RunningSum(items) == EstimateSize(items)
  {
    if items != [] {
      var n := |items| - 1;
      RunningSumIsExact(items[..n]);
      assert items == items[..n] + [items[n]];
      if n > 0 {
        JoinAppend(items[..n], items[n]);
      }
    }
  }

  /** The characters of all items, and two for each: brackets of the list, or a comma and a blank. */
  ghost function Weight(items: seq<Match>): nat {
    if items == [] then 0 else Weight(items[..|items| - 1]) + |items[|items| - 1]| + 2
  }

  /** The serialised length of a list, counted directly. */
  lemma {:induction false} SizeIsWeight(items: seq<Match>)
    ensures EstimateSize(items) == Weight(items)
    ensures items != [] ==> |Dump(items)| == Weight(items)
  {
    RunningSumIsExact(items);
    if items != [] {
      SizeIsWeight(items[..|items| - 1]);
      RunningSumIsExact(items[..|items| - 1]);
    }
  }

  /** How a list is written: one item between brackets, and items apart by a comma and a blank. */
  lemma {:induction false} JoinLaw(a: seq<Match>, b: seq<Match>)
    ensures |a| == 1 ==> Dump(a) == "[" + a[0] + "]"
    ensures a != [] && b != [] ==> Join(a + b) == Join(a) + ", " + Join(b)
  {
    if a != [] && b != [] {
      TailOfJoin(a, b);
      if |a| > 1 {
        JoinLaw(a[1..], b);
        assert a[0] + ", " + (Join(a[1..]) + ", " + Join(b)) == a[0] + ", " + Join(a[1..]) + ", " + Join(b);
      } else {
        JoinEmpty(b);
      }
    }
  }

  lemma {:induction false} SumPrefix(items: seq<Match>, k: nat)
    requires k <= |items|
    ensures RunningSum(items[..k]) <= RunningSum(items)
    decreases |items|
  {
    if k < |items| {
      var n := |items| - 1;
      assert items[..n][..k] == items[..k];
      SumPrefix(items[..n], k);
    } else {
      assert items[..k] == items;
    }
  }

  /** kept is the longest prefix whose serialised size stays within the limit. */
  ghost predicate LongestFit(items: seq<Match>, limit: int, kept: seq<Match>) {
    && kept <= items
    && (kept == [] || Weight(kept) <= limit)
    && forall k :: |kept| < k <= |items| ==> Weight(items[..k]) > limit
  }

  lemma {:induction false} NoLongerFit(items: seq<Match>, limit: int, i: nat)
    requires i < |items| && RunningSum(items[..i + 1]) > limit
    ensures forall k :: i < k <= |items| ==> Weight(items[..k]) > limit
  {
    forall k | i < k <= |items| ensures Weight(items[..k]) > limit {
      assert items[..k][..i + 1] == items[..i + 1];
      SumPrefix(items[..k], i + 1);
      RunningSumIsExact(items[..k]);
      SizeIsWeight(items[..k]);
    }
  }

  method TruncateToSize(items: seq<Match>, limit: int) returns (kept: seq<Match>)
    ensures LongestFit(items, limit, kept)
  {
    kept := [];
    var size := 0;
    for i := 0 to |items|
      invariant kept == items[..i] && size == RunningSum(kept)
      invariant i == 0 || size <= limit
    {
      var more := EstimateSize([items[i]]);
      TakeNext(items, i);
      assert RunningSum(items[..i + 1]) == size + more;
      if size + more <= limit {
        kept, size := kept + [items[i]], size + more;
      } else {
        NoLongerFit(items, limit, i);
        RunningSumIsExact(kept);
        SizeIsWeight(kept);
        return;
      }
      TakeNext(items, i);
    }
    RunningSumIsExact(kept);
    SizeIsWeight(kept);
  }

  /** The least room, in characters, for which third-level matches are considered. */
  const MIN_L3_ROOM := 10_000

  /**
   All first-level matches stay. If they take more than 80% of the limit nothing else does;
   otherwise second-level matches get up to 60% of the rest, third-level ones what is left,
   and the three lists together stay within the limit.
   */
  method Prioritize(l1: seq<Match>, l2: seq<Match>, l3: seq<Match>, limit: nat)
    returns (kept1: seq<Match>, kept2: seq<Match>, kept3: seq<Match>)
    ensures kept1 == l1
    ensures 5 * Weight(l1) > 4 * limit ==> kept2 == [] && kept3 == []
    ensures 5 * Weight(l1) <= 4 * limit ==>
              && Weight(kept1) + Weight(kept2) + Weight(kept3) <= limit
              && LongestFit(l2, (limit - Weight(l1)) * 3 / 5, kept2)
              && var room := limit - Weight(l1) - Weight(kept2);
              if room >= 10_000 then LongestFit(l3, room, kept3) else kept3 == []
  {
    SizeIsWeight(l1);
    SizeIsWeight(l2);
    kept1, kept2, kept3 := l1, [], [];
    var size1 := EstimateSize(l1);
    if 5 * size1 > 4 * limit {
      return;
    }
    var remaining := limit - size1;
    var share := remaining * 3 / 5;
    if 5 * EstimateSize(l2) <= 3 * remaining {
      kept2 := l2;
    } else {
      kept2 := TruncateToSize(l2, share);
    }
    SizeIsWeight(kept2);
    remaining := limit - size1 - EstimateSize(kept2);
    if remaining >= MIN_L3_ROOM {
      kept3 := TruncateToSize(l3, remaining);
    }
  }
}
