/** `migrate:status`: one row per migration file, in listing order, with the batch that
    applied it (0 when none did), sorted by batch from the highest down, and rendered with
    "-" in place of batch 0. */
module MigrateStatusCommand {
  import opened Text
  import opened MigrationLedger
  import MigrateCommand

  /** `result.reduce((acc, row) => { acc[row.migration] = row.batch … }, {})`: a later row for
      the same migration overwrites an earlier one. */
  function Executed(rows: seq<LedgerRow>): (r: map<string, int>)
    ensures forall n :: n in r <==> n in Names(rows)
  {
    if rows == [] then map[]
    else
      var last := rows[|rows| - 1];
      assert Names(rows) == Names(rows[..|rows| - 1]) + [last.migration] by {
        assert rows == rows[..|rows| - 1] + [last];
        MigrateCommand.NamesSnoc(rows[..|rows| - 1], last);
      }
      Executed(rows[..|rows| - 1])[last.migration := last.batch]
  }

  /** The last row of a migration decides its entry: a later row for the same migration
      overwrites an earlier one. */
  lemma {:induction false} ExecutedLastRow(rows: seq<LedgerRow>, i: int)
    requires 0 <= i < |rows|
    requires forall j :: i < j < |rows| ==> rows[j].migration != rows[i].migration
    ensures rows[i].migration in Executed(rows) && Executed(rows)[rows[i].migration] == rows[i].batch
  {
    if i < |rows| - 1 {
      var init := rows[..|rows| - 1];
      assert init[i] == rows[i];
      assert forall j :: i < j < |init| ==> init[j].migration != init[i].migration by {
        forall j | i < j < |init| ensures init[j].migration != init[i].migration {
          assert init[j] == rows[j];
        }
      }
      ExecutedLastRow(init, i);
      assert rows[|rows| - 1].migration != rows[i].migration;
    }
  }

  /** In a ledger naming each migration once, every row's migration maps to its batch. */
  lemma {:induction false} ExecutedBatch(rows: seq<LedgerRow>, x: LedgerRow)
    requires UniqueNames(rows) && x in rows
    ensures x.migration in Executed(rows) && Executed(rows)[x.migration] == x.batch
  {
    var init := rows[..|rows| - 1];
    var last := rows[|rows| - 1];
    if x != last {
      assert x in init by {
        var i :| 0 <= i < |rows| && rows[i] == x;
        assert i < |rows| - 1 && init[i] == x;
      }
      assert UniqueNames(init);
      ExecutedBatch(init, x);
      var i :| 0 <= i < |init| && init[i] == x;
      assert rows[i] == x;
    }
  }

  /** `executedMigrations[file] || 0`: a file never applied, or recorded with batch 0, reads 0. */
  function BatchNo(executed: map<string, int>, file: string): (r: int)
    ensures file in executed ==> r == executed[file]
    ensures file !in executed ==> r == 0
  {
    if file in executed then executed[file] else 0
  }

  datatype StatusRow = StatusRow(no: int, batchNo: int, filename: string, status: string)

  const Pending := "Pending"
  const Migrated := "Migrated"

  /** `getMigrationStatus(files, executed)`. */
  function MigrationStatus(files: seq<string>, executed: map<string, int>): (r: seq<StatusRow>)
    ensures |r| == |files|
    ensures forall i :: 0 <= i < |files| ==>
      r[i].no == i + 1 && r[i].filename == files[i] && r[i].batchNo == BatchNo(executed, files[i])
    ensures forall i :: 0 <= i < |files| ==> (r[i].status == Pending <==> r[i].batchNo == 0)
    ensures forall i :: 0 <= i < |files| ==> r[i].status in {Pending, Migrated}
  {
    seq(|files|, i requires 0 <= i < |files| =>
      var batchNo := BatchNo(executed, files[i]);
      StatusRow(i + 1, batchNo, files[i], if batchNo == 0 then Pending else Migrated))
  }

  /** A listed file shows "Pending" exactly when the ledger has no row for it with a non-zero
      batch; otherwise it shows that row's batch. */
  lemma StatusAgainstLedger(rows: seq<LedgerRow>, files: seq<string>, i: nat)
    requires UniqueNames(rows) && i < |files|
    ensures var row := MigrationStatus(files, Executed(rows))[i];
      (row.status == Pending <==> forall x :: x in rows && x.migration == files[i] ==> x.batch == 0) &&
      (forall x :: x in rows && x.migration == files[i] ==> row.batchNo == x.batch)
  {
    forall x | x in rows && x.migration == files[i] {
      ExecutedBatch(rows, x);
    }
    if files[i] in Executed(rows) {
      var k :| 0 <= k < |rows| && Names(rows)[k] == files[i];
      ExecutedBatch(rows, rows[k]);
    }
  }

  /** Rows ordered by batch from the highest down. */
  predicate SortedDesc(s: seq<StatusRow>) {
    forall i, j :: 0 <= i < j < |s| ==> s[i].batchNo >= s[j].batchNo
  }

  /** The rows with batch `v`, in their order. */
  function WithBatch(s: seq<StatusRow>, v: int): (r: seq<StatusRow>)
    ensures forall x :: x in r <==> x in s && x.batchNo == v
  {
    if s == [] then [] else (if s[0].batchNo == v then [s[0]] else []) + WithBatch(s[1..], v)
  }

  /** Places `x` before the first row whose batch is not above its own. */
  function Insert(x: StatusRow, s: seq<StatusRow>): (r: seq<StatusRow>)
    ensures multiset(r) == multiset(s) + multiset{x}
  {
    if s == [] then [x]
    else if s[0].batchNo <= x.batchNo then [x] + s
    else
      assert s == [s[0]] + s[1..];
      [s[0]] + Insert(x, s[1..])
  }

  /** `sort((a, b) => b.batchNo - a.batchNo)`; the sort is stable, so rows of equal batch keep
      their listing order. */
  function SortByBatch(s: seq<StatusRow>): (r: seq<StatusRow>)
    ensures multiset(r) == multiset(s)
  {
    if s == [] then []
    else
      assert s == [s[0]] + s[1..];
      Insert(s[0], SortByBatch(s[1..]))
  }

  lemma {:induction false} InsertSorted(x: StatusRow, s: seq<StatusRow>)
    requires SortedDesc(s)
    ensures SortedDesc(Insert(x, s))
  {
    if s != [] && s[0].batchNo > x.batchNo {
      InsertSorted(x, s[1..]);
      var r := Insert(x, s);
      var t := Insert(x, s[1..]);
      assert r == [s[0]] + t;
      forall k | 0 <= k < |t| ensures s[0].batchNo >= t[k].batchNo {
        assert t[k] in multiset(t);
        assert t[k] == x || t[k] in s[1..];
      }
    }
  }

  lemma {:induction false} InsertWithBatch(x: StatusRow, s: seq<StatusRow>, v: int)
    ensures WithBatch(Insert(x, s), v) == (if x.batchNo == v then [x] else []) + WithBatch(s, v)
  {
    if s == [] {
      WithBatchCons(x, [], v);
      assert Insert(x, s) == [x] + [];
    } else if s[0].batchNo <= x.batchNo {
      WithBatchCons(x, s, v);
    } else {
      var t, w := Insert(x, s[1..]), WithBatch(s[1..], v);
      InsertWithBatch(x, s[1..], v);
      assert Insert(x, s) == [s[0]] + t;
      WithBatchCons(s[0], t, v);
      WithBatchCons(s[0], s[1..], v);
      assert s == [s[0]] + s[1..];
      if x.batchNo == v {
        assert WithBatch(t, v) == [x] + w;
        assert WithBatch(Insert(x, s), v) == [x] + w;
        assert WithBatch(s, v) == w;
      } else {
        assert WithBatch(t, v) == w;
      }
    }
  }

  lemma WithBatchCons(y: StatusRow, t: seq<StatusRow>, v: int)
    ensures WithBatch([y] + t, v) == (if y.batchNo == v then [y] else []) + WithBatch(t, v)
  {
    assert ([y] + t)[0] == y && ([y] + t)[1..] == t;
  }

  /** The sorted rows run from the highest batch down, hold the same rows, and keep the
      listing order among rows of one batch. */
  lemma {:induction false} SortByBatchCorrect(s: seq<StatusRow>, v: int)
    ensures SortedDesc(SortByBatch(s))
    ensures multiset(SortByBatch(s)) == multiset(s)
    ensures WithBatch(SortByBatch(s), v) == WithBatch(s, v)
  {
    if s != [] {
      SortByBatchCorrect(s[1..], v);
      InsertSorted(s[0], SortByBatch(s[1..]));
      InsertWithBatch(s[0], SortByBatch(s[1..]), v);
    }
  }

  /** The "Batch No" cell: "-" for batch 0, otherwise the number. */
  function BatchCell(batchNo: int): (r: string)
    ensures r == "-" <==> batchNo == 0
    ensures batchNo != 0 ==> r == IntToString(batchNo)
  {
    if batchNo == 0 then "-" else IntToString(batchNo)
  }

  /** One printed line: number, batch, file name, status. */
  function Cells(row: StatusRow): (r: seq<string>)
    ensures |r| == 4 && r[0] == IntToString(row.no) && r[2] == row.filename && r[3] == row.status
    ensures r[1] == "-" <==> row.batchNo == 0
    ensures row.batchNo != 0 ==> r[1] == IntToString(row.batchNo)
  {
    [IntToString(row.no), BatchCell(row.batchNo), row.filename, row.status]
  }

  /** What `handle()` prints: the listed `.ts`/`.js` files against the ledger, sorted. */
  function Report(rows: seq<LedgerRow>, listing: seq<string>): seq<StatusRow> {
    SortByBatch(MigrationStatus(MigrateCommand.MigrationFiles(listing), Executed(rows)))
  }

  /** Every file of the listing shows once, numbered by its place in the filtered listing;
      the report runs from the highest batch down. */
  lemma ReportShape(rows: seq<LedgerRow>, listing: seq<string>)
    ensures var files := MigrateCommand.MigrationFiles(listing);
      multiset(Report(rows, listing)) == multiset(MigrationStatus(files, Executed(rows))) &&
      |Report(rows, listing)| == |files| &&
      SortedDesc(Report(rows, listing))
  {
    var s := MigrationStatus(MigrateCommand.MigrationFiles(listing), Executed(rows));
    SortByBatchCorrect(s, 0);
    assert |multiset(Report(rows, listing))| == |multiset(s)|;
  }
}
