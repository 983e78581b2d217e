/** Priority keys and the stable sort that the schedulers use for their ready lists. */
module Sorting {

  /** A Python sort key: a tuple of integers, compared lexicographically. */
  datatype Key = Key(first: int, second: int, third: int) {
    predicate Below(that: Key) {
      || first < that.first
      || (first == that.first && second < that.second)
      || (first == that.first && second == that.second && third < that.third)
    }
  }

  type Keys = map<int, Key>

  function At(keys: Keys, v: int): Key {
    if v in keys then keys[v] else Key(0, 0, 0)
  }

  function Elems<T>(s: seq<T>): set<T> {
    set x | x in s
  }

  ghost predicate Distinct<T(!new)>(s: seq<T>) {
    forall i, j :: 0 <= i < j < |s| ==> s[i] != s[j]
  }

  /** No later element has a smaller key than an earlier one. */
  ghost predicate Ordered(keys: Keys, s: seq<int>) {
    forall i, j :: 0 <= i < j < |s| ==> !At(keys, s[j]).Below(At(keys, s[i]))
  }

  /** Different nodes never tie. */
  ghost predicate NoTies(keys: Keys, nodes: set<int>) {
    forall u, v :: u in nodes && v in nodes && At(keys, u) == At(keys, v) ==> u == v
  }

  /** Puts x in front of the first element whose key is not smaller than its own. */
  function Insert(keys: Keys, x: int, s: seq<int>): (r: seq<int>)
    ensures multiset(r) == multiset(s) + multiset{x}
  {
    if s == [] || !At(keys, s[0]).Below(At(keys, x)) then [x] + s
    else
      assert s == [s[0]] + s[1..];
      [s[0]] + Insert(keys, x, s[1..])
  }

  lemma {:induction false} InsertOrders(keys: Keys, x: int, s: seq<int>)
    requires Ordered(keys, s)
    ensures Ordered(keys, Insert(keys, x, s))
  {
    if s != [] && At(keys, s[0]).Below(At(keys, x)) {
      var t := Insert(keys, x, s[1..]);
      InsertOrders(keys, x, s[1..]);
      forall j | 0 <= j < |t| ensures !At(keys, t[j]).Below(At(keys, s[0])) {
        assert t[j] in multiset(t);
        assert t[j] == x || t[j] in s[1..];
      }
    }
  }

  /** The stable sort behind `sorted(..., key=key)` and `list.sort(key=key)`. */
  function Sort(keys: Keys, s: seq<int>): (r: seq<int>)
    ensures multiset(r) == multiset(s)
    ensures Ordered(keys, r)
  {
    if s == [] then [] else
      assert s == [s[0]] + s[1..];
      InsertOrders(keys, s[0], Sort(keys, s[1..]));
      Insert(keys, s[0], Sort(keys, s[1..]))
  }

  /** Elements with equal keys stand in the order of their arrival. */
  ghost predicate TiesBy(keys: Keys, arrivals: Keys, s: seq<int>) {
    forall i, j :: 0 <= i < j < |s| && At(keys, s[i]) == At(keys, s[j]) ==> At(arrivals, s[i]).Below(At(arrivals, s[j]))
  }

  /** x arrived before every element of s with the same key. */
  ghost predicate AheadOf(keys: Keys, arrivals: Keys, x: int, s: seq<int>) {
    forall y :: y in s && At(keys, x) == At(keys, y) ==> At(arrivals, x).Below(At(arrivals, y))
  }

  lemma {:induction false} TiesPut(keys: Keys, arrivals: Keys, x: int, s: seq<int>)
    requires AheadOf(keys, arrivals, x, s) && TiesBy(keys, arrivals, s)
    ensures TiesBy(keys, arrivals, [x] + s)
  {
    var t := [x] + s;
    forall i, j | 0 <= i < j < |t| && At(keys, t[i]) == At(keys, t[j])
      ensures At(arrivals, t[i]).Below(At(arrivals, t[j]))
    {
      assert t[j] == s[j - 1] && t[j] in s;
      assert i > 0 ==> t[i] == s[i - 1];
    }
  }

  lemma {:induction false} TiesTaken(keys: Keys, arrivals: Keys, s: seq<int>)
    requires s != [] && TiesBy(keys, arrivals, s)
    ensures AheadOf(keys, arrivals, s[0], s[1..]) && TiesBy(keys, arrivals, s[1..])
  {
    forall y | y in s[1..] && At(keys, s[0]) == At(keys, y) ensures At(arrivals, s[0]).Below(At(arrivals, y)) {
      var j :| 0 <= j < |s[1..]| && s[1..][j] == y;
      assert s[j + 1] == y;
    }
  }

  lemma {:induction false} TiesSame(keys: Keys, before: Keys, after: Keys, s: seq<int>)
    requires TiesBy(keys, before, s) && forall v :: v in s ==> At(after, v) == At(before, v)
    ensures TiesBy(keys, after, s)
  {
    forall i, j | 0 <= i < j < |s| && At(keys, s[i]) == At(keys, s[j]) ensures At(after, s[i]).Below(At(after, s[j])) {
      assert s[i] in s && s[j] in s;
    }
  }

  lemma {:induction false} AheadOfSame(keys: Keys, arrivals: Keys, x: int, s: seq<int>, t: seq<int>)
    requires multiset(s) == multiset(t) && AheadOf(keys, arrivals, x, s)
    ensures AheadOf(keys, arrivals, x, t)
  {
    forall y | y in t ensures y in s {
      assert y in multiset(t);
    }
  }

  lemma {:induction false} InsertStable(keys: Keys, arrivals: Keys, x: int, s: seq<int>)
    requires AheadOf(keys, arrivals, x, s) && TiesBy(keys, arrivals, s)
    ensures TiesBy(keys, arrivals, Insert(keys, x, s))
  {
    if s == [] || !At(keys, s[0]).Below(At(keys, x)) {
      TiesPut(keys, arrivals, x, s);
    } else {
      var rest := s[1..];
      assert s == [s[0]] + rest;
      TiesTaken(keys, arrivals, s);
      InsertStable(keys, arrivals, x, rest);
      assert AheadOf(keys, arrivals, s[0], rest + [x]);
      AheadOfSame(keys, arrivals, s[0], rest + [x], Insert(keys, x, rest));
      TiesPut(keys, arrivals, s[0], Insert(keys, x, rest));
    }
  }

  /** The sort is stable: it never exchanges elements with equal keys. */
  lemma {:induction false} SortStable(keys: Keys, arrivals: Keys, s: seq<int>)
    requires TiesBy(keys, arrivals, s)
    ensures TiesBy(keys, arrivals, Sort(keys, s))
  {
    if s != [] {
      TiesTaken(keys, arrivals, s);
      SortStable(keys, arrivals, s[1..]);
      AheadOfSame(keys, arrivals, s[0], s[1..], Sort(keys, s[1..]));
      InsertStable(keys, arrivals, s[0], Sort(keys, s[1..]));
    }
  }

  /** The members of s, in the order in which nodes lists them. */
  function Select(nodes: seq<int>, s: set<int>): (r: seq<int>)
    ensures forall x :: x in r <==> x in nodes && x in s
    ensures Distinct(nodes) ==> Distinct(r)
  {
    if nodes == [] then [] else
      var rest := Select(nodes[1..], s);
      assert nodes == [nodes[0]] + nodes[1..];
      assert Distinct(nodes) ==> nodes[0] !in nodes[1..];
      if nodes[0] in s then [nodes[0]] + rest else rest
  }

  /** Selecting repeats nothing exactly if the list repeats none of the selected. */
  lemma {:induction false} SelectDistinctIff(nodes: seq<int>, s: set<int>)
    ensures Distinct(Select(nodes, s)) <==>
            forall i, j :: 0 <= i < j < |nodes| && nodes[i] == nodes[j] ==> nodes[i] !in s
  {
    if nodes != [] {
      var rest, chosen := nodes[1..], Select(nodes[1..], s);
      SelectDistinctIff(rest, s);
      assert forall i :: 0 <= i < |rest| ==> rest[i] == nodes[i + 1];
      if nodes[0] in s {
        DistinctCons(nodes[0], chosen);
      }
      if nodes[0] in s && nodes[0] in rest {
        var j :| 0 <= j < |rest| && rest[j] == nodes[0];
        assert nodes[0] == nodes[j + 1];
      }
    }
  }

  lemma {:induction false} DistinctCons<T(!new)>(x: T, s: seq<T>)
    ensures Distinct([x] + s) <==> x !in s && Distinct(s)
  {
    var t := [x] + s;
    assert forall i :: 0 <= i < |s| ==> t[i + 1] == s[i];
    if x in s {
      var j :| 0 <= j < |s| && s[j] == x;
      assert t[0] == t[j + 1];
    }
  }

  lemma {:induction false} SelectAppend(nodes: seq<int>, s: set<int>, x: int)
    ensures Select(nodes + [x], s) == Select(nodes, s) + if x in s then [x] else []
  {
    if nodes != [] {
      assert (nodes + [x])[1..] == nodes[1..] + [x];
      SelectAppend(nodes[1..], s, x);
    }
  }

  lemma {:induction false} ElemsAppend<T>(s: seq<T>, x: T)
    ensures Elems(s + [x]) == Elems(s) + {x}
  {
  }

  lemma {:induction false} Pick<T>(s: set<T>) returns (x: T)
    requires s != {}
    ensures x in s
  {
    x :| x in s;
  }

  lemma {:induction false} PickMissing<T>(s: set<T>, t: set<T>) returns (x: T)
    requires !(s <= t)
    ensures x in s && x !in t
  {
    x :| x in s && x !in t;
  }

  lemma {:induction false} SubsetSize<T>(a: set<T>, b: set<T>)
    requires a <= b
    ensures |a| <= |b|
  {
    assert b == a + (b - a);
  }

  lemma {:induction false} SameSizeSubset<T>(a: set<T>, b: set<T>)
    requires a <= b && |a| == |b|
    ensures a == b
  {
    assert b == a + (b - a);
  }

  lemma {:induction false} DistinctByCount<T(!new)>(s: seq<T>)
    ensures Distinct(s) <==> forall x :: multiset(s)[x] <= 1
  {
    if s != [] {
      var t := s[1..];
      assert s == [s[0]] + t;
      DistinctByCount(t);
      assert forall x :: multiset(s)[x] == multiset(t)[x] + if x == s[0] then 1 else 0;
      if s[0] in t {
        var j :| 0 <= j < |t| && t[j] == s[0];
        assert s[0] == s[j + 1];
        assert multiset(s)[s[0]] == multiset(t)[s[0]] + 1;
      } else {
        assert Distinct(s) <==> Distinct(t) by {
          if Distinct(s) {
            assert forall i :: 0 <= i < |t| ==> t[i] == s[i + 1];
          }
        }
      }
    }
  }

  lemma {:induction false} SameMembers<T(!new)>(s: seq<T>, t: seq<T>)
    requires multiset(s) == multiset(t)
    ensures Elems(s) == Elems(t)
    ensures |s| == |t|
    ensures Distinct(s) ==> Distinct(t)
  {
    forall x ensures x in s <==> x in t {
      assert x in s <==> x in multiset(s);
      assert x in t <==> x in multiset(t);
    }
    assert |s| == |multiset(s)| && |t| == |multiset(t)|;
    DistinctByCount(s);
    DistinctByCount(t);
  }

  lemma {:induction false} CountDistinct<T(!new)>(s: seq<T>)
    requires Distinct(s)
    ensures |Elems(s)| == |s|
  {
    if s != [] {
      var n := |s| - 1;
      assert s == s[..n] + [s[n]];
      CountDistinct(s[..n]);
      assert Elems(s) == Elems(s[..n]) + {s[n]};
    }
  }

  /** A sorted arrangement that lists ties by arrival is unique. */
  lemma {:induction false} ArrangementUnique(keys: Keys, arrivals: Keys, s: seq<int>, t: seq<int>)
    requires Elems(s) == Elems(t) && Distinct(s) && Distinct(t)
    requires Ordered(keys, s) && Ordered(keys, t)
    requires TiesBy(keys, arrivals, s) && TiesBy(keys, arrivals, t)
    ensures s == t
  {
    CountDistinct(s);
    CountDistinct(t);
    if s != [] {
      assert s[0] in Elems(t) && t[0] in Elems(s);
      var i :| 0 <= i < |s| && s[i] == t[0];
      var j :| 0 <= j < |t| && t[j] == s[0];
      assert s[0] == t[0];
      ElemsTail(s);
      ElemsTail(t);
      ArrangementUnique(keys, arrivals, s[1..], t[1..]);
      assert s == [s[0]] + s[1..] && t == [t[0]] + t[1..];
    }
  }

  lemma {:induction false} ElemsTail<T(!new)>(s: seq<T>)
    requires s != [] && Distinct(s)
    ensures Elems(s[1..]) == Elems(s) - {s[0]}
  {
    assert forall x :: x in s[1..] ==> exists k :: 1 <= k < |s| && s[k] == x;
  }

  /** A sorted arrangement of nodes without ties is unique. */
  lemma {:induction false} OrderedUnique(keys: Keys, s: seq<int>, t: seq<int>)
    requires Elems(s) == Elems(t) && Distinct(s) && Distinct(t)
    requires NoTies(keys, Elems(s))
    requires Ordered(keys, s) && Ordered(keys, t)
    ensures s == t
  {
    NoTiesAtAll(keys, s);
    NoTiesAtAll(keys, t);
    ArrangementUnique(keys, keys, s, t);
  }

  lemma {:induction false} NoTiesAtAll(keys: Keys, s: seq<int>)
    requires NoTies(keys, Elems(s)) && Distinct(s)
    ensures TiesBy(keys, keys, s)
  {
    forall i, j | 0 <= i < j < |s| ensures At(keys, s[i]) != At(keys, s[j]) {
      assert s[i] in Elems(s) && s[j] in Elems(s);
    }
  }
}
