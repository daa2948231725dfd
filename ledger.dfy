/** The `migrations` table the migration commands read and write, reduced to its
    `(migration, batch)` rows in table order, and each migration file reduced to whether its
    class loads and whether its `up()` and `down()` complete. The table declares `migration`
    UNIQUE, so a well-formed ledger names each migration at most once. */
module MigrationLedger {
  import opened Wrappers

  datatype LedgerRow = LedgerRow(migration: string, batch: int)

  /** What running a migration class does: whether `up()` and `down()` complete or throw. */
  datatype Behaviour = Behaviour(upSucceeds: bool, downSucceeds: bool)

  /** The migration classes that load, by file name; a file not in the map has no loadable
      `Migration` class (the import fails or exports none). */
  type Classes = map<string, Behaviour>

  function Names(rows: seq<LedgerRow>): (r: seq<string>)
    ensures |r| == |rows|
    ensures forall i :: 0 <= i < |rows| ==> r[i] == rows[i].migration
  {
    if rows == [] then [] else [rows[0].migration] + Names(rows[1..])
  }

  predicate UniqueNames(rows: seq<LedgerRow>) {
    forall i, j :: 0 <= i < j < |rows| ==> rows[i].migration != rows[j].migration
  }

  predicate Distinct(names: seq<string>) {
    forall i, j :: 0 <= i < j < |names| ==> names[i] != names[j]
  }

  /** `SELECT MAX(batch) FROM migrations`: `None` (SQL NULL) on an empty table. */
  function MaxBatch(rows: seq<LedgerRow>): (r: Option<int>)
    ensures r.None? <==> rows == []
    ensures r.Some? ==> exists i :: 0 <= i < |rows| && rows[i].batch == r.value
    ensures r.Some? ==> forall i :: 0 <= i < |rows| ==> rows[i].batch <= r.value
  {
    if rows == [] then None
    else
      var rest := MaxBatch(rows[1..]);
      if rest.None? || rows[0].batch >= rest.value then Some(rows[0].batch) else rest
  }

  /** `SELECT migration FROM migrations WHERE batch = b`, in table order. */
  function InBatch(rows: seq<LedgerRow>, b: int): (r: seq<LedgerRow>)
    ensures forall x :: x in r <==> x in rows && x.batch == b
  {
    Filter(rows, (x: LedgerRow) => x.batch == b)
  }

  function Filter(rows: seq<LedgerRow>, p: LedgerRow -> bool): (r: seq<LedgerRow>)
    ensures |r| <= |rows|
    ensures forall x :: x in r <==> x in rows && p(x)
  {
    if rows == [] then []
    else (if p(rows[0]) then [rows[0]] else []) + Filter(rows[1..], p)
  }

  lemma {:induction false} FilterCompose(rows: seq<LedgerRow>, p: LedgerRow -> bool, q: LedgerRow -> bool)
    ensures Filter(Filter(rows, p), q) == Filter(rows, (x: LedgerRow) => p(x) && q(x))
  {
    var pq := (x: LedgerRow) => p(x) && q(x);
    if rows != [] {
      FilterCompose(rows[1..], p, q);
      assert Filter(rows, pq) == (if pq(rows[0]) then [rows[0]] else []) + Filter(rows[1..], pq);
      if p(rows[0]) {
        assert Filter(rows, p) == [rows[0]] + Filter(rows[1..], p);
        var f := Filter(rows, p);
        assert f[0] == rows[0] && f[1..] == Filter(rows[1..], p);
        assert Filter(f, q) == (if q(rows[0]) then [rows[0]] else []) + Filter(Filter(rows[1..], p), q);
      } else {
        assert Filter(rows, p) == Filter(rows[1..], p);
      }
    }
  }

  /** A filter every row passes keeps the ledger as it is. */
  lemma {:induction false} FilterAll(rows: seq<LedgerRow>, p: LedgerRow -> bool)
    requires forall x :: x in rows ==> p(x)
    ensures Filter(rows, p) == rows
  {
    if rows != [] {
      FilterAll(rows[1..], p);
    }
  }

  /** A filter no row passes leaves nothing. */
  lemma {:induction false} FilterNone(rows: seq<LedgerRow>, p: LedgerRow -> bool)
    requires forall x :: x in rows ==> !p(x)
    ensures Filter(rows, p) == []
  {
    if rows != [] {
      FilterNone(rows[1..], p);
    }
  }

  lemma {:induction false} FilterExt(rows: seq<LedgerRow>, p: LedgerRow -> bool, q: LedgerRow -> bool)
    requires forall x :: x in rows ==> p(x) == q(x)
    ensures Filter(rows, p) == Filter(rows, q)
  {
    if rows != [] {
      FilterExt(rows[1..], p, q);
    }
  }

  /** A filtered ledger keeps its rows in their order, so it still names each migration once. */
  lemma {:induction false} FilterUnique(rows: seq<LedgerRow>, p: LedgerRow -> bool)
    requires UniqueNames(rows)
    ensures UniqueNames(Filter(rows, p))
  {
    if rows != [] {
      FilterUnique(rows[1..], p);
      var rest := Filter(rows[1..], p);
      forall x | x in rest ensures x.migration != rows[0].migration {
        var j :| 0 <= j < |rows[1..]| && rows[1..][j] == x;
        assert rows[j + 1] == x;
      }
    }
  }

  /** `DELETE FROM migrations WHERE migration = ?`. */
  function RemoveRecord(rows: seq<LedgerRow>, name: string): (r: seq<LedgerRow>)
    ensures forall x :: x in r <==> x in rows && x.migration != name
  {
    Filter(rows, (x: LedgerRow) => x.migration != name)
  }

  /** `INSERT … ON DUPLICATE KEY UPDATE batch = VALUES(batch)`: an existing row for the
      migration takes the new batch in place; otherwise a row is appended. */
  function Record(rows: seq<LedgerRow>, name: string, b: int): (r: seq<LedgerRow>)
    ensures name !in Names(rows) ==> r == rows + [LedgerRow(name, b)]
    ensures name in Names(rows) ==> |r| == |rows|
    ensures LedgerRow(name, b) in r
    ensures forall x :: x in rows && x.migration != name ==> x in r
    ensures forall x :: x in r ==> x == LedgerRow(name, b) || x in rows
  {
    if rows == [] then [LedgerRow(name, b)]
    else if rows[0].migration == name then [LedgerRow(name, b)] + rows[1..]
    else [rows[0]] + Record(rows[1..], name, b)
  }

  /** Recording keeps at most one row per migration. */
  lemma {:induction false} RecordUnique(rows: seq<LedgerRow>, name: string, b: int)
    requires UniqueNames(rows)
    ensures UniqueNames(Record(rows, name, b))
  {
    if rows != [] {
      assert rows == [rows[0]] + rows[1..];
      UniqueCons(rows[0], rows[1..]);
      if rows[0].migration != name {
        RecordUnique(rows[1..], name, b);
        UniqueCons(rows[0], Record(rows[1..], name, b));
      } else {
        UniqueCons(LedgerRow(name, b), rows[1..]);
      }
    }
  }

  lemma UniqueCons(x: LedgerRow, rest: seq<LedgerRow>)
    ensures UniqueNames([x] + rest) <==> UniqueNames(rest) && forall y :: y in rest ==> y.migration != x.migration
  {
    var s := [x] + rest;
    if UniqueNames(rest) && forall y :: y in rest ==> y.migration != x.migration {
      forall i, j | 0 <= i < j < |s| ensures s[i].migration != s[j].migration {
        assert s[j] == rest[j - 1];
        if i > 0 {
          assert s[i] == rest[i - 1];
        } else {
          assert s[0] == x && rest[j - 1] in rest;
        }
      }
    }
    if UniqueNames(s) {
      forall y | y in rest ensures y.migration != x.migration {
        var j :| 0 <= j < |rest| && rest[j] == y;
        assert s[0] == x && s[j + 1] == y;
      }
      forall i, j | 0 <= i < j < |rest| ensures rest[i].migration != rest[j].migration {
        assert s[i + 1] == rest[i] && s[j + 1] == rest[j];
      }
    }
  }

  /** `down()` of the migration loads and completes. */
  predicate Reverts(classes: Classes, name: string) {
    name in classes && classes[name].downSucceeds
  }

  /** The database: the rows of the `migrations` table. */
  class MigrationTable {
    var rows: seq<LedgerRow>

    constructor (rows: seq<LedgerRow>)
      ensures this.rows == rows
    {
      this.rows := rows;
    }
  }
}
