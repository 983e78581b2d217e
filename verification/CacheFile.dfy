/** What the decomposition cache file holds, and what each operation means for it. */
module CacheFile {
  import opened Basics

  /** A problem object of the cache, field by field. */
  type Problem = map<string, string>

  /** One entry; a dict keeps its entries in insertion order. */
  datatype Row = Row(sha: string, problems: seq<Problem>)

  /** The cache file: missing, not readable as a cache, or a list of rows with distinct keys. */
  datatype Content = Absent | Malformed | Rows(rows: seq<Row>)

  datatype Op = Set(sha: string, problems: seq<Problem>) | Clear | Get(sha: string)

  function CleanProblem(p: Problem): Problem {
    p - {"validation_sequence"}
  }

  function CleanProblems(ps: seq<Problem>): seq<Problem> {
    seq(|ps|, i requires 0 <= i < |ps| => CleanProblem(ps[i]))
  }

  function CleanRows(rows: seq<Row>): seq<Row> {
    seq(|rows|, i requires 0 <= i < |rows| => Row(rows[i].sha, CleanProblems(rows[i].problems)))
  }

  /** Reading the file: an error for anything but a cache. */
  function Load(c: Content): Option<seq<Row>> {
    match c
    case Absent => Some([])
    case Malformed => None
    case Rows(rows) => Some(CleanRows(rows))
  }

  /** Dict assignment: replace in place, or append. */
  function Put(rows: seq<Row>, sha: string, problems: seq<Problem>): seq<Row> {
    if rows == [] then [Row(sha, problems)]
    else if rows[0].sha == sha then [Row(sha, problems)] + rows[1..]
    else [rows[0]] + Put(rows[1..], sha, problems)
  }

  function Find(rows: seq<Row>, sha: string): Option<seq<Problem>> {
    if rows == [] then None
    else if rows[0].sha == sha then Some(rows[0].problems)
    else Find(rows[1..], sha)
  }

  /** First row, in order, whose key extends or is extended by the requested one. */
  function FindPrefix(rows: seq<Row>, sha: string): Option<seq<Problem>> {
    if rows == [] then None
    else if sha <= rows[0].sha || rows[0].sha <= sha then Some(rows[0].problems)
    else FindPrefix(rows[1..], sha)
  }

  function Lookup(rows: seq<Row>, sha: string): Option<seq<Problem>> {
    if sha == "" then None
    else if Find(rows, sha).Some? then Find(rows, sha)
    else FindPrefix(rows, sha)
  }

  /** The effect of an operation on the file when it commits. */
  function Apply(c: Content, op: Op): Content {
    match op
    case Set(sha, problems) =>
      (match Load(c)
       case None => c
       case Some(rows) => if sha == "" then c else Rows(Put(rows, sha, CleanProblems(problems))))
    case Clear => Rows([])
    case Get(_) => c
  }

  function Replay(c: Content, ops: seq<Op>): Content {
    if ops == [] then c else Apply(Replay(c, ops[..|ops| - 1]), ops[|ops| - 1])
  }

  // ---------- Laws of the file ----------

  lemma {:induction false} CleanTwice(rows: seq<Row>)
    ensures CleanRows(CleanRows(rows)) == CleanRows(rows)
  {
    forall ps: seq<Problem> ensures CleanProblems(CleanProblems(ps)) == CleanProblems(ps) {
      assert forall p: Problem :: CleanProblem(CleanProblem(p)) == CleanProblem(p);
    }
  }

  lemma {:induction false} FindPut(rows: seq<Row>, sha: string, problems: seq<Problem>, other: string)
    ensures Find(Put(rows, sha, problems), other) == if other == sha then Some(problems) else Find(rows, other)
  {
    if rows != [] && rows[0].sha != sha {
      FindPut(rows[1..], sha, problems, other);
    }
  }

  lemma {:induction false} FindClean(rows: seq<Row>, sha: string)
    ensures Find(CleanRows(rows), sha) ==
            if Find(rows, sha).Some? then Some(CleanProblems(Find(rows, sha).value)) else None
  {
    if rows != [] {
      assert CleanRows(rows)[1..] == CleanRows(rows[1..]);
      FindClean(rows[1..], sha);
    }
  }

  lemma {:induction false} CleanProblemsTwice(ps: seq<Problem>)
    ensures CleanProblems(CleanProblems(ps)) == CleanProblems(ps)
  {
    assert forall p: Problem :: CleanProblem(CleanProblem(p)) == CleanProblem(p);
  }

  ghost predicate Keeps(op: Op, sha: string) {
    !op.Clear? && (op.Set? ==> op.sha != sha)
  }

  /** What a reader finds for a key is not changed by operations on other keys. */
  lemma {:induction false} KeepsKey(c: Content, op: Op, sha: string)
    requires Load(c).Some? && Keeps(op, sha)
    ensures Load(Apply(c, op)).Some?
    ensures Find(Load(Apply(c, op)).value, sha) == Find(Load(c).value, sha)
  {
    if op.Set? && op.sha != "" {
      var rows := Load(c).value;
      var after := Put(rows, op.sha, CleanProblems(op.problems));
      FindPut(rows, op.sha, CleanProblems(op.problems), sha);
      FindClean(after, sha);
      FindClean(rows, sha);
      LoadIsClean(c, sha);
    }
  }

  lemma {:induction false} LoadIsClean(c: Content, sha: string)
    requires Load(c).Some?
    ensures Find(CleanRows(Load(c).value), sha) == Find(Load(c).value, sha)
  {
    if c.Rows? {
      CleanTwice(c.rows);
    } else {
      assert CleanRows([]) == [];
    }
  }

  lemma {:induction false} FoundExactly(c: Content, ops: seq<Op>, i: nat)
    requires i < |ops| && ops[i].Set? && ops[i].sha != "" && Load(Replay(c, ops[..i])).Some?
    requires forall j :: i < j < |ops| ==> Keeps(ops[j], ops[i].sha)
    ensures Load(Replay(c, ops)).Some?
    ensures Find(Load(Replay(c, ops)).value, ops[i].sha) == Some(CleanProblems(ops[i].problems))
    decreases |ops|
  {
    var n, sha := |ops| - 1, ops[i].sha;
    var before := Replay(c, ops[..n]);
    if i < n {
      assert ops[..n][..i] == ops[..i];
      FoundExactly(c, ops[..n], i);
      KeepsKey(before, ops[n], sha);
    } else {
      var after := Put(Load(before).value, sha, CleanProblems(ops[n].problems));
      FindPut(Load(before).value, sha, CleanProblems(ops[n].problems), sha);
      FindClean(after, sha);
      CleanProblemsTwice(ops[n].problems);
    }
  }

  /** q has the fields of p with their values, all but the validation sequence. */
  ghost predicate KeepsFields(p: Problem, q: Problem) {
    && (forall k :: k in q <==> k in p && k != "validation_sequence")
    && (forall k :: k in q ==> q[k] == p[k])
  }

  /** found is stored, problem by problem. */
  ghost predicate HoldsStored(stored: seq<Problem>, found: seq<Problem>) {
    |found| == |stored| && forall j :: 0 <= j < |stored| ==> KeepsFields(stored[j], found[j])
  }

  lemma {:induction false} CleanHoldsStored(ps: seq<Problem>)
    ensures HoldsStored(ps, CleanProblems(ps))
  {
  }

  /**
   No lost update: after any operations, an entry that was set on a readable file is found with all its
   problems and fields, unless its key was set again or the cache was cleared since.
   */
  lemma {:induction false} NoLostUpdate(c: Content, ops: seq<Op>, i: nat)
    requires i < |ops| && ops[i].Set? && ops[i].sha != ""
    requires c != Malformed || exists j :: 0 <= j < i && ops[j].Clear?
    requires forall j :: i < j < |ops| ==> !ops[j].Clear? && !(ops[j].Set? && ops[j].sha == ops[i].sha)
    ensures Replay(c, ops).Rows?
    ensures var found := Lookup(Replay(c, ops).rows, ops[i].sha);
            found.Some? && HoldsStored(ops[i].problems, found.value)
    ensures Load(Replay(c, ops)).Some?
    ensures Lookup(Load(Replay(c, ops)).value, ops[i].sha) == Some(CleanProblems(ops[i].problems))
  {
    Readable(c, ops[..i]);
    forall j | 0 <= j < i && ops[j].Clear? ensures ops[..i][j].Clear? {
    }
    FoundExactly(c, ops, i);
    SetMakesRows(c, ops, i);
    FoundOnDisk(c, ops, i);
    CleanHoldsStored(ops[i].problems);
  }

  /** Once something was set the file has rows. */
  lemma {:induction false} SetMakesRows(c: Content, ops: seq<Op>, i: nat)
    requires i < |ops| && ops[i].Set? && ops[i].sha != "" && Load(Replay(c, ops[..i])).Some?
    ensures Replay(c, ops).Rows?
    decreases |ops|
  {
    var n := |ops| - 1;
    if i < n {
      assert ops[..n][..i] == ops[..i];
      SetMakesRows(c, ops[..n], i);
    }
  }

  lemma {:induction false} FoundOnDisk(c: Content, ops: seq<Op>, i: nat)
    requires i < |ops| && ops[i].Set? && ops[i].sha != "" && Load(Replay(c, ops[..i])).Some?
    requires forall j :: i < j < |ops| ==> Keeps(ops[j], ops[i].sha)
    requires Replay(c, ops).Rows?
    ensures Find(Replay(c, ops).rows, ops[i].sha) == Some(CleanProblems(ops[i].problems))
    decreases |ops|
  {
    var n, sha := |ops| - 1, ops[i].sha;
    var before := Replay(c, ops[..n]);
    if i == n {
      FindPut(Load(before).value, sha, CleanProblems(ops[n].problems), sha);
    } else {
      assert ops[..n][..i] == ops[..i];
      SetMakesRows(c, ops[..n], i);
      FoundOnDisk(c, ops[..n], i);
      if ops[n].Set? && ops[n].sha != "" {
        FindPut(Load(before).value, ops[n].sha, CleanProblems(ops[n].problems), sha);
        FindClean(before.rows, sha);
        CleanProblemsTwice(ops[i].problems);
      }
    }
  }

  /** A file that can be read stays readable; one that cannot is repaired only by clear. */
  lemma {:induction false} Readable(c: Content, ops: seq<Op>)
    ensures Replay(c, ops) != Malformed <==> c != Malformed || exists i :: 0 <= i < |ops| && ops[i].Clear?
  {
    if ops != [] {
      var n := |ops| - 1;
      Readable(c, ops[..n]);
      if i :| 0 <= i < n && ops[..n][i].Clear? {
        assert ops[i].Clear?;
      }
      if i :| 0 <= i < |ops| && ops[i].Clear? {
        assert i < n ==> ops[..n][i].Clear?;
      }
    }
  }

  // ---------- What a lookup finds ----------

  /** One key starts with the other. */
  ghost predicate SharePrefix(a: string, b: string) {
    a <= b || b <= a
  }

  lemma {:induction false} FindIs(rows: seq<Row>, sha: string)
    ensures Find(rows, sha) == None <==> forall i :: 0 <= i < |rows| ==> rows[i].sha != sha
    ensures forall i :: 0 <= i < |rows| && rows[i].sha == sha && (forall j :: 0 <= j < i ==> rows[j].sha != sha) ==>
                          Find(rows, sha) == Some(rows[i].problems)
  {
    if rows != [] && rows[0].sha != sha {
      FindIs(rows[1..], sha);
      forall i | 0 <= i < |rows| && rows[i].sha == sha && forall j :: 0 <= j < i ==> rows[j].sha != sha
        ensures Find(rows, sha) == Some(rows[i].problems)
      {
        assert rows[1..][i - 1] == rows[i];
      }
    }
  }

  lemma {:induction false} FindPrefixIs(rows: seq<Row>, sha: string)
    ensures FindPrefix(rows, sha) == None <==> forall i :: 0 <= i < |rows| ==> !SharePrefix(sha, rows[i].sha)
    ensures forall i :: 0 <= i < |rows| && SharePrefix(sha, rows[i].sha)
                        && (forall j :: 0 <= j < i ==> !SharePrefix(sha, rows[j].sha)) ==>
                          FindPrefix(rows, sha) == Some(rows[i].problems)
  {
    if rows != [] && !SharePrefix(sha, rows[0].sha) {
      FindPrefixIs(rows[1..], sha);
      forall i | 0 <= i < |rows| && SharePrefix(sha, rows[i].sha)
                 && forall j :: 0 <= j < i ==> !SharePrefix(sha, rows[j].sha)
        ensures FindPrefix(rows, sha) == Some(rows[i].problems)
      {
        assert rows[1..][i - 1] == rows[i];
      }
    }
  }

  /** The row with the key itself, else the first whose key shares a prefix with it, else nothing. */
  lemma {:induction false} LookupIs(rows: seq<Row>, sha: string)
    ensures Lookup(rows, sha) == None <==> sha == "" || forall i :: 0 <= i < |rows| ==> !SharePrefix(sha, rows[i].sha)
    ensures forall i :: && 0 <= i < |rows| && sha != "" && rows[i].sha == sha
                        && (forall j :: 0 <= j < i ==> rows[j].sha != sha) ==>
                          Lookup(rows, sha) == Some(rows[i].problems)
    ensures forall i :: && 0 <= i < |rows| && sha != "" && SharePrefix(sha, rows[i].sha)
                        && (forall j :: 0 <= j < i ==> !SharePrefix(sha, rows[j].sha))
                        && (forall j :: 0 <= j < |rows| ==> rows[j].sha != sha) ==>
                          Lookup(rows, sha) == Some(rows[i].problems)
  {
    FindIs(rows, sha);
    FindPrefixIs(rows, sha);
  }

  /** Dict assignment of a new key adds a row at the end. */
  lemma {:induction false} PutNew(rows: seq<Row>, sha: string, problems: seq<Problem>)
    requires forall i :: 0 <= i < |rows| ==> rows[i].sha != sha
    ensures Put(rows, sha, problems) == rows + [Row(sha, problems)]
  {
    if rows == [] {
      JoinEmpty([Row(sha, problems)]);
    } else {
      PutNew(rows[1..], sha, problems);
      JoinAssociates([rows[0]], rows[1..], [Row(sha, problems)]);
      assert rows == [rows[0]] + rows[1..];
    }
  }

  /** Dict assignment of a key that is there replaces its row in place. */
  lemma {:induction false} PutOld(rows: seq<Row>, sha: string, problems: seq<Problem>, i: nat)
    requires i < |rows| && rows[i].sha == sha && forall j :: 0 <= j < i ==> rows[j].sha != sha
    ensures Put(rows, sha, problems) == rows[..i] + [Row(sha, problems)] + rows[i + 1..]
  {
    if i == 0 {
      JoinEmpty([Row(sha, problems)]);
      assert rows[..0] == [];
    } else {
      var rest := rows[1..];
      PutOld(rest, sha, problems, i - 1);
      assert rows[..i] == [rows[0]] + rest[..i - 1] && rest[i..] == rows[i + 1..];
      JoinAssociates([rows[0]], rest[..i - 1], [Row(sha, problems)]);
      JoinAssociates([rows[0]], rest[..i - 1] + [Row(sha, problems)], rest[i..]);
    }
  }
}
