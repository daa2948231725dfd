/** `migrate`: runs, in listing order, every migration file the ledger does not name yet,
    records each one whose `up()` completes under the next batch number, skips files without
    a loadable class, and stops at the first `up()` that throws. */
module MigrateCommand {
  import opened Wrappers
  import opened Text
  import opened MigrationLedger

  /** `readdirSync(dir).filter(file => file.endsWith(".ts") || file.endsWith(".js"))`. */
  function MigrationFiles(listing: seq<string>): (r: seq<string>)
    ensures forall f :: f in r <==> f in listing && (EndsWith(f, ".ts") || EndsWith(f, ".js"))
    ensures Distinct(listing) ==> Distinct(r)
  {
    if listing == [] then []
    else
      var rest := MigrationFiles(listing[1..]);
      if EndsWith(listing[0], ".ts") || EndsWith(listing[0], ".js") then
        assert Distinct(listing) ==> listing[0] !in listing[1..];
        [listing[0]] + rest
      else rest
  }

  /** `maxBatch ? maxBatch : 0` over `SELECT MAX(batch)`. */
  function CurrentBatch(rows: seq<LedgerRow>): (r: int)
    ensures rows == [] ==> r == 0
    ensures forall i :: 0 <= i < |rows| ==> rows[i].batch <= r
    ensures rows != [] ==> exists i :: 0 <= i < |rows| && rows[i].batch == r
  {
    var m := MaxBatch(rows);
    if m.None? || m.value == 0 then 0 else m.value
  }

  /** What the loop does from `files` on, with the names already executed and the batch
      number fixed before the loop. */
  function Run(rows: seq<LedgerRow>, files: seq<string>, classes: Classes, executed: seq<string>, b: int): seq<LedgerRow>
    decreases |files|
  {
    if files == [] then rows
    else if files[0] in executed || files[0] !in classes then Run(rows, files[1..], classes, executed, b)
    else if !classes[files[0]].upSucceeds then rows
    else Run(Record(rows, files[0], b), files[1..], classes, executed, b)
  }

  /** The files whose `up()` runs and completes, in order, up to the first that throws. */
  function Applied(files: seq<string>, classes: Classes, executed: seq<string>): (r: seq<string>)
    ensures forall f :: f in r ==> f in files && f !in executed && f in classes && classes[f].upSucceeds
  {
    if files == [] then []
    else if files[0] in executed || files[0] !in classes then Applied(files[1..], classes, executed)
    else if !classes[files[0]].upSucceeds then []
    else [files[0]] + Applied(files[1..], classes, executed)
  }

  /** The ledger after `migrate` over the given files. */
  function Migrated(rows: seq<LedgerRow>, files: seq<string>, classes: Classes): seq<LedgerRow> {
    Run(rows, files, classes, Names(rows), CurrentBatch(rows) + 1)
  }

  function NewRows(names: seq<string>, b: int): (r: seq<LedgerRow>)
    ensures |r| == |names|
    ensures forall i :: 0 <= i < |names| ==> r[i] == LedgerRow(names[i], b)
  {
    seq(|names|, i requires 0 <= i < |names| => LedgerRow(names[i], b))
  }

  lemma NamesAppend(rows: seq<LedgerRow>, names: seq<string>, b: int)
    ensures Names(rows + NewRows(names, b)) == Names(rows) + names
  {
  }

  lemma DistinctTail(files: seq<string>)
    requires files != [] && Distinct(files)
    ensures Distinct(files[1..]) && files[0] !in files[1..]
  {
  }

  lemma NamesSnoc(rows: seq<LedgerRow>, x: LedgerRow)
    ensures Names(rows + [x]) == Names(rows) + [x.migration]
  {
  }

  lemma NewRowsCons(rows: seq<LedgerRow>, f: string, rest: seq<string>, b: int)
    ensures (rows + [LedgerRow(f, b)]) + NewRows(rest, b) == rows + NewRows([f] + rest, b)
  {
    assert NewRows([f] + rest, b) == [LedgerRow(f, b)] + NewRows(rest, b);
  }

  /** With distinct files, the loop only appends: one row per applied file, all in batch b. */
  lemma {:induction false} RunShape(rows: seq<LedgerRow>, files: seq<string>, classes: Classes, executed: seq<string>, b: int)
    requires Distinct(files)
    requires forall f :: f in files && f !in executed ==> f !in Names(rows)
    ensures Run(rows, files, classes, executed, b) == rows + NewRows(Applied(files, classes, executed), b)
    decreases |files|
  {
    if files != [] {
      var f := files[0];
      DistinctTail(files);
      assert forall g :: g in files[1..] ==> g in files;
      if f in executed || f !in classes {
        RunShape(rows, files[1..], classes, executed, b);
      } else if classes[f].upSucceeds {
        RunShapeStep(rows, files, classes, executed, b);
      }
    }
  }

  lemma RunShapeStep(rows: seq<LedgerRow>, files: seq<string>, classes: Classes, executed: seq<string>, b: int)
    requires files != [] && Distinct(files)
    requires files[0] !in executed && files[0] in classes && classes[files[0]].upSucceeds
    requires forall f :: f in files && f !in executed ==> f !in Names(rows)
    ensures Run(rows, files, classes, executed, b) == rows + NewRows(Applied(files, classes, executed), b)
    decreases |files|, 0
  {
    var f := files[0];
    DistinctTail(files);
    var rows1 := rows + [LedgerRow(f, b)];
    assert f !in Names(rows);
    assert Record(rows, f, b) == rows1;
    assert Run(rows, files, classes, executed, b) == Run(rows1, files[1..], classes, executed, b);
    NamesSnoc(rows, LedgerRow(f, b));
    forall g | g in files[1..] && g !in executed ensures g !in Names(rows1) {
      assert g in files && g != f;
    }
    RunShape(rows1, files[1..], classes, executed, b);
    var rest := Applied(files[1..], classes, executed);
    assert Applied(files, classes, executed) == [f] + rest;
    NewRowsCons(rows, f, rest, b);
  }

  /** `migrate` on distinct files appends one row per applied file, each in batch
      `CurrentBatch + 1`, and leaves every earlier row as it was. */
  lemma MigrateAppends(rows: seq<LedgerRow>, files: seq<string>, classes: Classes)
    requires Distinct(files)
    ensures Migrated(rows, files, classes)
         == rows + NewRows(Applied(files, classes, Names(rows)), CurrentBatch(rows) + 1)
  {
    RunShape(rows, files, classes, Names(rows), CurrentBatch(rows) + 1);
  }

  /** A file whose `up()` throws ends the run: nothing listed after it is applied. */
  lemma {:induction false} AppliedStops(files: seq<string>, classes: Classes, executed: seq<string>, j: nat)
    requires j < |files| && files[j] !in executed && files[j] in classes && !classes[files[j]].upSucceeds
    ensures forall f :: f in Applied(files, classes, executed) ==> f in files[..j]
  {
    if j > 0 {
      AppliedStops(files[1..], classes, executed, j - 1);
      assert forall f :: f in files[1..][..j - 1] ==> f in files[..j];
    }
  }

  /** When no runnable `up()` throws, every loadable file not yet executed is applied. */
  lemma {:induction false} AppliedComplete(files: seq<string>, classes: Classes, executed: seq<string>)
    requires forall f :: f in files && f !in executed && f in classes ==> classes[f].upSucceeds
    ensures forall f :: f in files && f !in executed && f in classes ==> f in Applied(files, classes, executed)
  {
    if files != [] {
      assert forall f :: f in files[1..] ==> f in files;
      AppliedComplete(files[1..], classes, executed);
      assert forall f :: f in files ==> f == files[0] || f in files[1..];
    }
  }

  /** Files already executed contribute nothing when the files of the run are replayed. */
  lemma {:induction false} AppliedAgain(files: seq<string>, classes: Classes, e: seq<string>, e2: seq<string>)
    requires Distinct(files)
    requires forall g :: g in files ==> (g in e2 <==> g in e || g in Applied(files, classes, e))
    ensures Applied(files, classes, e2) == []
  {
    if files != [] {
      var f := files[0];
      assert forall g :: g in files[1..] ==> g in files && g != f;
      assert Distinct(files[1..]);
      if f in e || f !in classes {
        AppliedAgain(files[1..], classes, e, e2);
      } else if classes[f].upSucceeds {
        AppliedAgain(files[1..], classes, e, e2);
      }
    }
  }

  /** Running `migrate` a second time with the same files and classes changes nothing:
      what the first run applied is now executed, and it stopped where the second stops. */
  lemma MigrateIdempotent(rows: seq<LedgerRow>, files: seq<string>, classes: Classes)
    requires Distinct(files)
    ensures Migrated(Migrated(rows, files, classes), files, classes) == Migrated(rows, files, classes)
  {
    var a := Applied(files, classes, Names(rows));
    var rows1 := rows + NewRows(a, CurrentBatch(rows) + 1);
    MigrateAppends(rows, files, classes);
    NamesAppend(rows, a, CurrentBatch(rows) + 1);
    AppliedAgain(files, classes, Names(rows), Names(rows1));
    MigrateAppends(rows1, files, classes);
    assert NewRows([], CurrentBatch(rows1) + 1) == [];
  }

  /** With every file already named in the ledger, `migrate` records nothing. */
  lemma {:induction false} NothingNew(rows: seq<LedgerRow>, files: seq<string>, classes: Classes, executed: seq<string>, b: int)
    requires forall f :: f in files ==> f in executed
    ensures Run(rows, files, classes, executed, b) == rows
  {
    if files != [] {
      assert forall f :: f in files[1..] ==> f in files;
      NothingNew(rows, files[1..], classes, executed, b);
    }
  }

  /** Recording is an upsert, so the ledger keeps one row per migration. */
  lemma {:induction false} RunUnique(rows: seq<LedgerRow>, files: seq<string>, classes: Classes, executed: seq<string>, b: int)
    requires UniqueNames(rows)
    ensures UniqueNames(Run(rows, files, classes, executed, b))
    decreases |files|
  {
    if files != [] {
      var f := files[0];
      if f in executed || f !in classes {
        RunUnique(rows, files[1..], classes, executed, b);
      } else if classes[f].upSucceeds {
        RecordUnique(rows, f, b);
        RunUnique(Record(rows, f, b), files[1..], classes, executed, b);
      }
    }
  }

  /** One turn of the loop: the file at `i` is skipped, stops the run, or is recorded. */
  lemma RunNext(rows: seq<LedgerRow>, files: seq<string>, classes: Classes, executed: seq<string>, b: int, i: nat)
    requires i < |files|
    ensures Run(rows, files[i..], classes, executed, b)
         == if files[i] in executed || files[i] !in classes then Run(rows, files[i + 1..], classes, executed, b)
            else if !classes[files[i]].upSucceeds then rows
            else Run(Record(rows, files[i], b), files[i + 1..], classes, executed, b)
  {
    assert files[i..][0] == files[i] && files[i..][1..] == files[i + 1..];
  }

  /** `handle()`: an empty listing ends at once; otherwise the loop over the files. */
  method Handle(table: MigrationTable, listing: seq<string>, classes: Classes)
    modifies table
    ensures table.rows == Migrated(old(table.rows), MigrationFiles(listing), classes)
  {
    var migrationFiles := MigrationFiles(listing);
    if |migrationFiles| == 0 {
      return;
    }
    var executed := Names(table.rows);
    var currentBatch := CurrentBatch(table.rows);
    ghost var start := table.rows;
    assert migrationFiles[0..] == migrationFiles;
    var i := 0;
    while i < |migrationFiles|
      invariant 0 <= i <= |migrationFiles|
      invariant Run(start, migrationFiles, classes, executed, currentBatch + 1)
             == Run(table.rows, migrationFiles[i..], classes, executed, currentBatch + 1)
    {
      var file := migrationFiles[i];
      RunNext(table.rows, migrationFiles, classes, executed, currentBatch + 1, i);
      if file in executed {
        i := i + 1;
        continue;
      }
      if file !in classes {
        i := i + 1;
        continue;
      }
      if !classes[file].upSucceeds {
        break;
      }
      table.rows := Record(table.rows, file, currentBatch + 1);
      i := i + 1;
    }
  }
}

/** `migrate:rollback`: the rows of the highest batch, in table order, are candidates; the
    first one with a loadable class is rolled back, and its row deleted only when `down()`
    completes. The process exits after that first success, so at most one migration is
    reverted per run. */
module MigrateRollbackCommand {
  import opened Wrappers
  import opened MigrationLedger

  /** `SELECT migration FROM migrations WHERE batch = (SELECT MAX(batch) FROM migrations)`. */
  function LastBatchMigrations(rows: seq<LedgerRow>): (r: seq<string>)
    ensures forall n :: n in r <==> exists x :: x in rows && x.migration == n && Some(x.batch) == MaxBatch(rows)
  {
    var m := MaxBatch(rows);
    if m.None? then []
    else
      var batch := InBatch(rows, m.value);
      assert forall n :: n in Names(batch) <==> exists x :: x in batch && x.migration == n;
      Names(batch)
  }

  /** The first candidate whose class loads. */
  function FirstLoadable(names: seq<string>, classes: Classes): (r: Option<string>)
    ensures r.None? <==> forall n :: n in names ==> n !in classes
    ensures r.Some? ==> r.value in names && r.value in classes
  {
    if names == [] then None
    else if names[0] in classes then Some(names[0])
    else FirstLoadable(names[1..], classes)
  }

  /** The ledger after `migrate:rollback`. */
  function RolledBack(rows: seq<LedgerRow>, classes: Classes): seq<LedgerRow> {
    var first := FirstLoadable(LastBatchMigrations(rows), classes);
    if first.Some? && classes[first.value].downSucceeds then RemoveRecord(rows, first.value) else rows
  }

  /** In a ledger naming each migration once, deleting by name removes at most one row. */
  lemma {:induction false} RemoveAtMostOne(rows: seq<LedgerRow>, name: string)
    requires UniqueNames(rows)
    ensures |RemoveRecord(rows, name)| >= |rows| - 1
  {
    if rows != [] {
      var p := (x: LedgerRow) => x.migration != name;
      assert RemoveRecord(rows, name) == (if p(rows[0]) then [rows[0]] else []) + Filter(rows[1..], p);
      if rows[0].migration == name {
        forall x | x in rows[1..] ensures p(x) {
          var j :| 0 <= j < |rows[1..]| && rows[1..][j] == x;
          assert rows[j + 1] == x;
        }
        FilterAll(rows[1..], p);
      } else {
        RemoveAtMostOne(rows[1..], name);
        assert RemoveRecord(rows[1..], name) == Filter(rows[1..], p);
      }
    }
  }

  /** At most one row goes, and only a row of the highest batch whose `down()` completed. */
  lemma RollbackAtMostOne(rows: seq<LedgerRow>, classes: Classes)
    requires UniqueNames(rows)
    ensures |RolledBack(rows, classes)| >= |rows| - 1
    ensures forall x :: x in RolledBack(rows, classes) ==> x in rows
    ensures forall x :: x in rows && x !in RolledBack(rows, classes) ==>
              Some(x.batch) == MaxBatch(rows) && Reverts(classes, x.migration)
  {
    var first := FirstLoadable(LastBatchMigrations(rows), classes);
    if first.Some? && classes[first.value].downSucceeds {
      RemoveAtMostOne(rows, first.value);
      forall x | x in rows && x !in RolledBack(rows, classes)
        ensures Some(x.batch) == MaxBatch(rows) && Reverts(classes, x.migration)
      {
        assert x.migration == first.value;
        var y :| y in rows && y.migration == first.value && Some(y.batch) == MaxBatch(rows);
        var i :| 0 <= i < |rows| && rows[i] == x;
        var j :| 0 <= j < |rows| && rows[j] == y;
        assert i == j;
      }
    }
  }

  /** `handle()`. */
  method Handle(table: MigrationTable, classes: Classes)
    modifies table
    ensures table.rows == RolledBack(old(table.rows), classes)
  {
    var lastBatch := LastBatchMigrations(table.rows);
    if |lastBatch| == 0 {
      return;
    }
    var i := 0;
    while i < |lastBatch|
      invariant 0 <= i <= |lastBatch|
      invariant table.rows == old(table.rows)
      invariant FirstLoadable(lastBatch, classes) == FirstLoadable(lastBatch[i..], classes)
    {
      var file := lastBatch[i];
      assert lastBatch[i..][1..] == lastBatch[i + 1..];
      if file !in classes {
        i := i + 1;
        continue;
      }
      if classes[file].downSucceeds {
        table.rows := RemoveRecord(table.rows, file);
        return;
      }
      break;
    }
  }
}
