/**
 The cache object of one process. Every public operation runs under the cache locks, so each
 method is described by its effect between taking and releasing them.
 */
module DecompositionCache {
  import opened CacheFile
  import opened Basics

  /** The directory entry of the cache file, shared by all processes. */
  class Disk {
    var content: Content

    constructor (c: Content)
      ensures content == c
    {
      content := c;
    }
  }

  datatype Answer = Error | Miss | Hit(problems: seq<Problem>)

  /** Row by row the same keys, and problems that keep their fields. */
  ghost predicate SameRows(stored: seq<Row>, table: seq<Row>) {
    && |table| == |stored|
    && forall i :: 0 <= i < |stored| ==>
                     table[i].sha == stored[i].sha && HoldsStored(stored[i].problems, table[i].problems)
  }

  class Cache {
    const disk: Disk
    var table: seq<Row>

    /** Reading a malformed file fails and leaves an empty table behind. */
    constructor (disk: Disk)
      ensures this.disk == disk
      ensures table == match Load(disk.content) case Some(rows) => rows case None => []
    {
      this.disk := disk;
      this.table := [];
      new;
      var ok := LoadCache();
    }

    /** Replace the table by the file; on an unreadable file keep it and report the error. */
    method LoadCache() returns (ok: bool)
      modifies this`table
      ensures ok == Load(disk.content).Some?
      ensures table == if ok then Load(disk.content).value else old(table)
      ensures ok <==> disk.content != Malformed
      ensures disk.content.Rows? ==> SameRows(disk.content.rows, table)
      ensures disk.content.Absent? ==> table == []
    {
      match disk.content
      case Absent =>
        table := [];
        ok := true;
      case Malformed =>
        ok := false;
      case Rows(rows) =>
        var cleaned := [];
        for i := 0 to |rows|
          invariant |cleaned| == i
          invariant forall j :: 0 <= j < i ==> cleaned[j] == Row(rows[j].sha, CleanProblems(rows[j].problems))
          invariant table == old(table)
        {
          cleaned := cleaned + [Row(rows[i].sha, CleanProblems(rows[i].problems))];
        }
        assert cleaned == CleanRows(rows);
        forall i | 0 <= i < |rows| ensures HoldsStored(rows[i].problems, cleaned[i].problems) {
          CleanHoldsStored(rows[i].problems);
        }
        table := cleaned;
        ok := true;
    }

    /** Write a temporary file and rename it over the cache; a failure leaves the cache alone. */
    method SaveCache(fails: bool) returns (ok: bool)
      modifies disk
      ensures ok == !fails
      ensures disk.content == if fails then old(disk.content) else Rows(table)
    {
      if !fails {
        disk.content := Rows(table);
      }
      ok := !fails;
    }

    /** Exact match first, else the first row whose key is a prefix of the request or the reverse. */
    method Get(sha: string) returns (answer: Answer)
      modifies this`table
      ensures sha == "" ==> answer == Miss && table == old(table)
      ensures sha != "" ==>
                answer == match Load(disk.content)
                          case None => Error
                          case Some(rows) => (match Lookup(rows, sha) case None => Miss case Some(ps) => Hit(ps))
      ensures table == if sha != "" && Load(disk.content).Some? then Load(disk.content).value else old(table)
    {
      if sha == "" {
        return Miss;
      }
      var ok := LoadCache();
      if !ok {
        return Error;
      }
      var exact := Find(table, sha);
      if exact.Some? {
        return Hit(exact.value);
      }
      for i := 0 to |table|
        invariant table == Load(disk.content).value && Find(table, sha) == None
        invariant FindPrefix(table, sha) == FindPrefix(table[i..], sha)
      {
        assert table[i..][0] == table[i] && table[i..][1..] == table[i + 1..];
        if sha <= table[i].sha || table[i].sha <= sha {
          return Hit(table[i].problems);
        }
      }
      answer := Miss;
    }

    method Has(sha: string) returns (yes: bool, error: bool)
      modifies this`table
      ensures error == (sha != "" && Load(disk.content).None?)
      ensures !error ==> yes == (sha != "" && Lookup(Load(disk.content).value, sha).Some?)
    {
      var answer := Get(sha);
      yes, error := answer.Hit?, answer.Error?;
    }

    /** Merge one entry into the latest file. An unreadable file is never overwritten. */
    method Set(sha: string, problems: seq<Problem>, fails: bool) returns (ok: bool)
      modifies this`table, disk
      ensures ok == (sha == "" || (Load(old(disk.content)).Some? && !fails))
      ensures disk.content == if fails then old(disk.content) else Apply(old(disk.content), Op.Set(sha, problems))
      ensures table == if sha == "" || Load(old(disk.content)).None? then old(table)
                       else Put(Load(old(disk.content)).value, sha, CleanProblems(problems))
      ensures sha != "" && ok ==>
                && disk.content.Rows? && Lookup(disk.content.rows, sha).Some?
                && HoldsStored(problems, Lookup(disk.content.rows, sha).value)
      ensures old(disk.content) == Malformed ==> disk.content == Malformed
    {
      if sha == "" {
        return true;
      }
      ok := LoadCache();
      if !ok {
        return;
      }
      FindPut(table, sha, CleanProblems(problems), sha);
      CleanHoldsStored(problems);
      table := Put(table, sha, CleanProblems(problems));
      ok := SaveCache(fails);
    }

    method Clear(fails: bool) returns (ok: bool)
      modifies this`table, disk
      ensures ok == !fails && table == []
      ensures disk.content == if fails then old(disk.content) else Rows([])
    {
      table := [];
      ok := SaveCache(fails);
    }
  }

  /** What one worker stores, another reads back with all its problems and fields, whatever the file held before. */
  method StoreThenRead(writer: Cache, reader: Cache, sha: string, problems: seq<Problem>) returns (answer: Answer)
    requires writer.disk == reader.disk && sha != "" && writer.disk.content != Malformed
    modifies writer`table, reader`table, writer.disk
    ensures answer.Hit? && HoldsStored(problems, answer.problems)
  {
    ghost var before := writer.disk.content;
    var ok := writer.Set(sha, problems, false);
    answer := reader.Get(sha);
    assert [Op.Set(sha, problems)][..0] == [];
    NoLostUpdate(before, [Op.Set(sha, problems)], 0);
    CleanHoldsStored(problems);
  }
}
