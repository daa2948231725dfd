/** `migrate:reset`: visits the batches from the highest down to 1 and, within a batch, its
    rows in table order; each migration whose class loads has `down()` run, and its row is
    deleted only when `down()` completes. Failures are logged and the loop goes on. */
module MigrateResetCommand {
  import opened Wrappers
  import opened MigrationLedger

  /** `result[0]?.maxBatch || null`: an empty ledger and a maximum of 0 both read as null. */
  function LastBatchNumber(rows: seq<LedgerRow>): (r: Option<int>)
    ensures r.None? <==> (rows == [] || MaxBatch(rows) == Some(0))
    ensures r.Some? ==> r == MaxBatch(rows)
  {
    var m := MaxBatch(rows);
    if m.None? || m.value == 0 then None else m
  }

  /** `rollbackMigration(file)`: the ledger afterwards. */
  function StepDown(rows: seq<LedgerRow>, name: string, classes: Classes): seq<LedgerRow> {
    if Reverts(classes, name) then RemoveRecord(rows, name) else rows
  }

  /** `for (const migration of migrations) rollbackMigration(migration)`. */
  function RollbackEach(rows: seq<LedgerRow>, names: seq<string>, classes: Classes): seq<LedgerRow>
    decreases |names|
  {
    if names == [] then rows else RollbackEach(StepDown(rows, names[0], classes), names[1..], classes)
  }

  /** The migrations, among `names`, whose `down()` is called: those whose class loads. */
  function Loadable(names: seq<string>, classes: Classes): seq<string>
  {
    if names == [] then []
    else (if names[0] in classes then [names[0]] else []) + Loadable(names[1..], classes)
  }

  lemma {:induction false} LoadableMembers(names: seq<string>, classes: Classes)
    ensures forall n :: n in Loadable(names, classes) <==> n in names && n in classes
  {
    if names != [] {
      LoadableMembers(names[1..], classes);
      assert names == [names[0]] + names[1..];
    }
  }

  /** The ledger after the batches `b, b - 1, …, 1`, each read from the ledger as it stands
      when the batch is reached. */
  function ResetFrom(rows: seq<LedgerRow>, b: int, classes: Classes): seq<LedgerRow>
    decreases if b < 1 then 0 else b
  {
    if b < 1 then rows
    else ResetFrom(RollbackEach(rows, Names(InBatch(rows, b)), classes), b - 1, classes)
  }

  /** The `down()` calls made over the same batches, in order. */
  function ResetCalls(rows: seq<LedgerRow>, b: int, classes: Classes): seq<string>
    decreases if b < 1 then 0 else b
  {
    if b < 1 then []
    else
      Loadable(Names(InBatch(rows, b)), classes)
      + ResetCalls(RollbackEach(rows, Names(InBatch(rows, b)), classes), b - 1, classes)
  }

  /** The ledger after `rollbackAll()`. */
  function Reset(rows: seq<LedgerRow>, classes: Classes): seq<LedgerRow> {
    var last := LastBatchNumber(rows);
    if last.None? then rows else ResetFrom(rows, last.value, classes)
  }

  /** The `down()` calls of `rollbackAll()`, in order. */
  function ResetOrder(rows: seq<LedgerRow>, classes: Classes): seq<string> {
    var last := LastBatchNumber(rows);
    if last.None? then [] else ResetCalls(rows, last.value, classes)
  }

  /** The reference order: batch `b` first, then `b - 1` and so on down to 1, each batch's
      loadable migrations in table order, all read from the ledger as it was at the start. */
  function BatchOrder(rows: seq<LedgerRow>, b: int, classes: Classes): seq<string>
    decreases if b < 1 then 0 else b
  {
    if b < 1 then [] else Loadable(Names(InBatch(rows, b)), classes) + BatchOrder(rows, b - 1, classes)
  }

  /** The rows that survive batches `1..b`: those outside them, or whose rollback did not
      complete. */
  function Kept(b: int, classes: Classes): LedgerRow -> bool {
    (x: LedgerRow) => !(1 <= x.batch <= b && Reverts(classes, x.migration))
  }

  /** The rows `migrate:reset` leaves: a batch below 1, which no batch visits, or a migration
      whose `down()` throws or whose class does not load. */
  function Remains(classes: Classes): LedgerRow -> bool {
    (x: LedgerRow) => x.batch < 1 || !Reverts(classes, x.migration)
  }

  /** Rolling back a list of migrations deletes exactly the rows naming one of them whose
      `down()` completes. */
  lemma {:induction false} RollbackEachFilters(rows: seq<LedgerRow>, names: seq<string>, classes: Classes)
    ensures RollbackEach(rows, names, classes)
         == Filter(rows, (x: LedgerRow) => !(x.migration in names && Reverts(classes, x.migration)))
    decreases |names|
  {
    var p := (x: LedgerRow) => !(x.migration in names && Reverts(classes, x.migration));
    if names == [] {
      FilterAll(rows, p);
    } else {
      var n := names[0];
      var q := (x: LedgerRow) => !(x.migration in names[1..] && Reverts(classes, x.migration));
      RollbackEachFilters(StepDown(rows, n, classes), names[1..], classes);
      assert forall m :: m in names <==> m == n || m in names[1..];
      if Reverts(classes, n) {
        var d := (x: LedgerRow) => x.migration != n;
        FilterCompose(rows, d, q);
        FilterExt(rows, (x: LedgerRow) => d(x) && q(x), p);
      } else {
        FilterExt(rows, q, p);
      }
    }
  }

  /** In a ledger naming each migration once, a name is in batch `b` exactly when its row is. */
  lemma BatchNamesUnique(rows: seq<LedgerRow>, b: int, x: LedgerRow)
    requires UniqueNames(rows) && x in rows
    ensures x.migration in Names(InBatch(rows, b)) <==> x.batch == b
  {
    var names := Names(InBatch(rows, b));
    if x.migration in names {
      var k :| 0 <= k < |names| && names[k] == x.migration;
      var y := InBatch(rows, b)[k];
      assert y in rows && y.batch == b && y.migration == x.migration;
      var i :| 0 <= i < |rows| && rows[i] == x;
      var j :| 0 <= j < |rows| && rows[j] == y;
      assert i == j;
    }
  }

  /** One batch deletes exactly its rows whose `down()` completes. */
  lemma BatchStep(rows: seq<LedgerRow>, b: int, classes: Classes)
    requires UniqueNames(rows)
    ensures RollbackEach(rows, Names(InBatch(rows, b)), classes)
         == Filter(rows, (x: LedgerRow) => !(x.batch == b && Reverts(classes, x.migration)))
  {
    var names := Names(InBatch(rows, b));
    RollbackEachFilters(rows, names, classes);
    forall x | x in rows
      ensures !(x.migration in names && Reverts(classes, x.migration)) == !(x.batch == b && Reverts(classes, x.migration))
    {
      BatchNamesUnique(rows, b, x);
    }
    FilterExt(rows, (x: LedgerRow) => !(x.migration in names && Reverts(classes, x.migration)),
              (x: LedgerRow) => !(x.batch == b && Reverts(classes, x.migration)));
  }

  /** After batches `b` down to 1, the ledger holds exactly the rows outside those batches
      and the rows whose rollback failed or whose class did not load, in their order. */
  lemma {:induction false} ResetFromKeeps(rows: seq<LedgerRow>, b: int, classes: Classes)
    requires UniqueNames(rows)
    ensures ResetFrom(rows, b, classes) == Filter(rows, Kept(b, classes))
    decreases if b < 1 then 0 else b
  {
    if b < 1 {
      FilterAll(rows, Kept(b, classes));
    } else {
      var step := (x: LedgerRow) => !(x.batch == b && Reverts(classes, x.migration));
      BatchStep(rows, b, classes);
      var rows1 := Filter(rows, step);
      FilterUnique(rows, step);
      ResetFromKeeps(rows1, b - 1, classes);
      FilterCompose(rows, step, Kept(b - 1, classes));
      FilterExt(rows, (x: LedgerRow) => step(x) && Kept(b - 1, classes)(x), Kept(b, classes));
    }
  }

  /** `migrate:reset` leaves exactly the rows whose `down()` failed or could not be loaded
      (and rows with a batch below 1, which no batch visits). */
  lemma ResetKeepsFailures(rows: seq<LedgerRow>, classes: Classes)
    requires UniqueNames(rows)
    ensures Reset(rows, classes) == Filter(rows, Remains(classes))
  {
    var p := Remains(classes);
    var last := LastBatchNumber(rows);
    if last.None? {
      if rows != [] {
        forall x | x in rows ensures p(x) {
          var i :| 0 <= i < |rows| && rows[i] == x;
        }
      }
      FilterAll(rows, p);
    } else {
      ResetFromKeeps(rows, last.value, classes);
      forall x | x in rows ensures Kept(last.value, classes)(x) == p(x) {
        var i :| 0 <= i < |rows| && rows[i] == x;
      }
      FilterExt(rows, Kept(last.value, classes), p);
    }
  }

  /** When every row has a batch of at least 1 and every `down()` completes, the ledger ends
      empty. */
  lemma ResetEmpties(rows: seq<LedgerRow>, classes: Classes)
    requires UniqueNames(rows)
    requires forall x :: x in rows ==> x.batch >= 1 && Reverts(classes, x.migration)
    ensures Reset(rows, classes) == []
  {
    ResetKeepsFailures(rows, classes);
    FilterNone(rows, Remains(classes));
  }

  /** Deleting rows outside batches `1..b` does not change what those batches read. */
  lemma {:induction false} BatchOrderFiltered(rows: seq<LedgerRow>, p: LedgerRow -> bool, b: int, classes: Classes)
    requires forall x :: x in rows && x.batch <= b ==> p(x)
    ensures BatchOrder(Filter(rows, p), b, classes) == BatchOrder(rows, b, classes)
    decreases if b < 1 then 0 else b
  {
    if b >= 1 {
      BatchOrderFiltered(rows, p, b - 1, classes);
      var inb := (x: LedgerRow) => x.batch == b;
      FilterCompose(rows, p, inb);
      FilterExt(rows, (x: LedgerRow) => p(x) && inb(x), inb);
      assert InBatch(Filter(rows, p), b) == InBatch(rows, b);
    }
  }

  /** The `down()` calls go batch by batch from the highest, each batch in table order,
      with no reversal inside a batch. */
  lemma {:induction false} ResetCallsOrder(rows: seq<LedgerRow>, b: int, classes: Classes)
    requires UniqueNames(rows)
    ensures ResetCalls(rows, b, classes) == BatchOrder(rows, b, classes)
    decreases if b < 1 then 0 else b
  {
    if b >= 1 {
      var step := (x: LedgerRow) => !(x.batch == b && Reverts(classes, x.migration));
      BatchStep(rows, b, classes);
      var rows1 := Filter(rows, step);
      FilterUnique(rows, step);
      ResetCallsOrder(rows1, b - 1, classes);
      BatchOrderFiltered(rows, step, b - 1, classes);
    }
  }

  /** `rollbackMigration(file)`: an unloadable class is skipped; the row goes only when
      `down()` completes. Answers whether `down()` was called. */
  method RollbackMigration(table: MigrationTable, file: string, classes: Classes) returns (called: bool)
    modifies table
    ensures table.rows == StepDown(old(table.rows), file, classes)
    ensures called <==> file in classes
  {
    if file !in classes {
      return false;
    }
    called := true;
    if classes[file].downSucceeds {
      table.rows := RemoveRecord(table.rows, file);
    }
  }

  lemma BatchUnfold(rows: seq<LedgerRow>, b: int, classes: Classes)
    requires b >= 1
    ensures var next := RollbackEach(rows, Names(InBatch(rows, b)), classes);
      ResetFrom(rows, b, classes) == ResetFrom(next, b - 1, classes) &&
      ResetCalls(rows, b, classes) == Loadable(Names(InBatch(rows, b)), classes) + ResetCalls(next, b - 1, classes)
  {
  }

  lemma RollbackNext(rows: seq<LedgerRow>, migrations: seq<string>, j: nat, classes: Classes, calls: seq<string>)
    requires j < |migrations|
    ensures RollbackEach(rows, migrations[j..], classes) == RollbackEach(StepDown(rows, migrations[j], classes), migrations[j + 1..], classes)
    ensures migrations[j] in classes ==>
      calls + Loadable(migrations[j..], classes) == (calls + [migrations[j]]) + Loadable(migrations[j + 1..], classes)
    ensures migrations[j] !in classes ==>
      calls + Loadable(migrations[j..], classes) == calls + Loadable(migrations[j + 1..], classes)
  {
    assert migrations[j..][0] == migrations[j] && migrations[j..][1..] == migrations[j + 1..];
    var rest := Loadable(migrations[j + 1..], classes);
    if migrations[j] in classes {
      assert calls + ([migrations[j]] + rest) == (calls + [migrations[j]]) + rest;
    } else {
      assert Loadable(migrations[j..], classes) == [] + rest;
    }
  }

  /** One batch of the loop of `rollbackAll()`: what is left to do after it, added to what it
      did, is what was left before it. */
  lemma ResetStep(rows: seq<LedgerRow>, b: int, classes: Classes, calls: seq<string>, batchCalls: seq<string>)
    requires b >= 1 && batchCalls == Loadable(Names(InBatch(rows, b)), classes)
    ensures var next := RollbackEach(rows, Names(InBatch(rows, b)), classes);
      ResetFrom(rows, b, classes) == ResetFrom(next, b - 1, classes) &&
      calls + ResetCalls(rows, b, classes) == (calls + batchCalls) + ResetCalls(next, b - 1, classes)
  {
    var next := RollbackEach(rows, Names(InBatch(rows, b)), classes);
    BatchUnfold(rows, b, classes);
    var rest := ResetCalls(next, b - 1, classes);
    assert calls + (batchCalls + rest) == (calls + batchCalls) + rest;
  }

  /** The inner loop of `rollbackAll()`: each migration of one batch in turn; answers the
      `down()` calls made. */
  method RollbackBatch(table: MigrationTable, migrations: seq<string>, classes: Classes) returns (calls: seq<string>)
    modifies table
    ensures table.rows == RollbackEach(old(table.rows), migrations, classes)
    ensures calls == Loadable(migrations, classes)
  {
    calls := [];
    var j := 0;
    while j < |migrations|
      invariant 0 <= j <= |migrations|
      invariant RollbackEach(old(table.rows), migrations, classes) == RollbackEach(table.rows, migrations[j..], classes)
      invariant Loadable(migrations, classes) == calls + Loadable(migrations[j..], classes)
    {
      RollbackNext(table.rows, migrations, j, classes, calls);
      var called := RollbackMigration(table, migrations[j], classes);
      if called {
        calls := calls + [migrations[j]];
      }
      j := j + 1;
    }
  }

  /** `rollbackAll()`; answers the `down()` calls in the order they were made. */
  method RollbackAll(table: MigrationTable, classes: Classes) returns (calls: seq<string>)
    modifies table
    ensures table.rows == Reset(old(table.rows), classes)
    ensures calls == ResetOrder(old(table.rows), classes)
  {
    calls := [];
    var lastBatchNumber := LastBatchNumber(table.rows);
    if lastBatchNumber.None? {
      return;
    }
    var batch := lastBatchNumber.value;
    ghost var start := table.rows;
    while batch >= 1
      invariant ResetFrom(start, lastBatchNumber.value, classes) == ResetFrom(table.rows, batch, classes)
      invariant ResetCalls(start, lastBatchNumber.value, classes) == calls + ResetCalls(table.rows, batch, classes)
      decreases batch
    {
      ghost var before := table.rows;
      var migrations := Names(InBatch(table.rows, batch));
      var batchCalls := RollbackBatch(table, migrations, classes);
      ResetStep(before, batch, classes, calls, batchCalls);
      calls := calls + batchCalls;
      batch := batch - 1;
    }
  }

  /** `handle()`. */
  method Handle(table: MigrationTable, classes: Classes) returns (calls: seq<string>)
    modifies table
    ensures table.rows == Reset(old(table.rows), classes)
    ensures calls == ResetOrder(old(table.rows), classes)
  {
    calls := RollbackAll(table, classes);
  }
}

/** `migrate:refresh`: the same rollback of every batch, then the `migrate` command, which
    runs even when there was nothing to roll back. */
module MigrateRefreshCommand {
  import opened Wrappers
  import opened MigrationLedger
  import MigrateCommand
  import MigrateResetCommand

  /** The ledger after `migrate:refresh`. */
  function Refreshed(rows: seq<LedgerRow>, listing: seq<string>, classes: Classes): seq<LedgerRow> {
    MigrateCommand.Migrated(MigrateResetCommand.Reset(rows, classes), MigrateCommand.MigrationFiles(listing), classes)
  }

  /** When every row has a batch of at least 1 and every `down()` completes, the ledger is
      emptied and then holds exactly the files `migrate` applies, all in batch 1. */
  lemma RefreshFromScratch(rows: seq<LedgerRow>, listing: seq<string>, classes: Classes)
    requires UniqueNames(rows) && Distinct(listing)
    requires forall x :: x in rows ==> x.batch >= 1 && Reverts(classes, x.migration)
    ensures Refreshed(rows, listing, classes)
         == MigrateCommand.NewRows(MigrateCommand.Applied(MigrateCommand.MigrationFiles(listing), classes, []), 1)
  {
    MigrateResetCommand.ResetEmpties(rows, classes);
    MigrateCommand.MigrateAppends([], MigrateCommand.MigrationFiles(listing), classes);
  }

  /** Migrations whose rollback failed stay recorded, so `migrate` does not run them again;
      the others are run anew. */
  lemma RefreshKeepsFailures(rows: seq<LedgerRow>, listing: seq<string>, classes: Classes)
    requires UniqueNames(rows) && Distinct(listing)
    ensures var kept := Filter(rows, MigrateResetCommand.Remains(classes));
      Refreshed(rows, listing, classes)
      == kept + MigrateCommand.NewRows(MigrateCommand.Applied(MigrateCommand.MigrationFiles(listing), classes, Names(kept)),
                                       MigrateCommand.CurrentBatch(kept) + 1)
  {
    MigrateResetCommand.ResetKeepsFailures(rows, classes);
    RefreshAfter(rows, listing, classes, Filter(rows, MigrateResetCommand.Remains(classes)));
  }

  /** Whatever the rollback leaves, `migrate` appends its new rows after it. */
  lemma RefreshAfter(rows: seq<LedgerRow>, listing: seq<string>, classes: Classes, kept: seq<LedgerRow>)
    requires Distinct(listing) && MigrateResetCommand.Reset(rows, classes) == kept
    ensures Refreshed(rows, listing, classes)
      == kept + MigrateCommand.NewRows(MigrateCommand.Applied(MigrateCommand.MigrationFiles(listing), classes, Names(kept)),
                                       MigrateCommand.CurrentBatch(kept) + 1)
  {
    MigrateCommand.MigrateAppends(kept, MigrateCommand.MigrationFiles(listing), classes);
  }

  /** `handle()`: answers the `down()` calls of the rollback. */
  method Handle(table: MigrationTable, listing: seq<string>, classes: Classes) returns (calls: seq<string>)
    modifies table
    ensures table.rows == Refreshed(old(table.rows), listing, classes)
    ensures calls == MigrateResetCommand.ResetOrder(old(table.rows), classes)
  {
    calls := MigrateResetCommand.RollbackAll(table, classes);
    MigrateCommand.Handle(table, listing, classes);
  }
}
