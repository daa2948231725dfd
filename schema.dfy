/** The schema facade: each operation issues exactly one statement on the adapter, built
    either by a blueprint (`create`, `table`) or by a fixed template. The adapter is the log
    of statements it received; what it answers is a parameter of each operation. */
module SchemaFacade {
  import opened Wrappers
  import opened Text
  import Js
  import Sql
  import opened Blueprints

  type Answer = Sql.Answer

  function DropSql(t: string): string { "DROP TABLE IF EXISTS " + t }
  function HasTableSql(t: string): string { "SELECT name FROM sqlite_master WHERE type='table' AND name='" + t + "'" }
  function HasColumnSql(t: string): string { "PRAGMA table_info(" + t + ")" }
  function DropColumnSql(t: string, c: string): string { "ALTER TABLE " + t + " DROP COLUMN " + c }
  function RenameTableSql(a: string, b: string): string { "ALTER TABLE " + a + " RENAME TO " + b }
  function RenameColumnSql(t: string, a: string, b: string): string {
    "ALTER TABLE " + t + " RENAME COLUMN " + a + " TO " + b
  }
  function ChangeColumnTypeSql(t: string, c: string, ty: string): string {
    "ALTER TABLE " + t + " ALTER COLUMN " + c + " TYPE " + ty
  }
  function AddConstraintSql(t: string, n: string, def: string): string {
    "ALTER TABLE " + t + " ADD CONSTRAINT " + n + " " + def
  }
  function DropConstraintSql(t: string, n: string): string { "ALTER TABLE " + t + " DROP CONSTRAINT " + n }
  function CreateIndexSql(t: string, i: string, cols: seq<string>, unique: bool): string {
    "CREATE " + (if unique then "UNIQUE" else "") + " INDEX " + i + " ON " + t + " (" + Join(cols, ", ") + ")"
  }
  function DropIndexSql(i: string): string { "DROP INDEX IF EXISTS " + i }

  /** `columns.some(column => column.name === columnName)`. */
  function SomeRowNamed(rows: seq<Sql.Row>, col: string): (b: bool)
    ensures b <==> exists i :: 0 <= i < |rows| && Js.Lookup(rows[i], "name") == Some(Js.Str(col))
  {
    if rows == [] then false
    else Js.Lookup(rows[0], "name") == Some(Js.Str(col)) || SomeRowNamed(rows[1..], col)
  }

  class Schema {
    var log: seq<Sql.Call>

    constructor ()
      ensures log == []
    {
      log := [];
    }

    method Issue(sql: string, answer: Answer) returns (r: Result<()>)
      modifies this
      ensures log == old(log) + [Sql.Query(sql, [])]
      ensures r == Sql.Done(answer)
    {
      log := log + [Sql.Query(sql, [])];
      r := Sql.Done(answer);
    }

    /** `create(t, cb)`: the callback's calls run on a fresh CREATE blueprint. */
    method Create(tableName: string, callback: seq<Call>, answer: Answer) returns (r: Result<()>)
      modifies this
      ensures log == old(log) + [Sql.Query(TableSql(Replay(Fresh(tableName, false), callback)), [])]
      ensures r == Sql.Done(answer)
    {
      var blueprint := new Blueprint(tableName, false);
      blueprint.ApplyAll(callback);
      r := Issue(blueprint.ToSql(), answer);
    }

    /** `table(t, cb)`: the same on an ALTER blueprint. */
    method Table(tableName: string, callback: seq<Call>, answer: Answer) returns (r: Result<()>)
      modifies this
      ensures log == old(log) + [Sql.Query(TableSql(Replay(Fresh(tableName, true), callback)), [])]
      ensures r == Sql.Done(answer)
    {
      var blueprint := new Blueprint(tableName, true);
      blueprint.ApplyAll(callback);
      r := Issue(blueprint.ToSql(), answer);
    }

    method Drop(tableName: string, answer: Answer) returns (r: Result<()>)
      modifies this
      ensures log == old(log) + [Sql.Query(DropSql(tableName), [])]
      ensures r == Sql.Done(answer)
    {
      r := Issue(DropSql(tableName), answer);
    }

    method DropIfExists(tableName: string, answer: Answer) returns (r: Result<()>)
      modifies this
      ensures log == old(log) + [Sql.Query(DropSql(tableName), [])]
      ensures r == Sql.Done(answer)
    {
      r := Drop(tableName, answer);
    }

    /** True exactly when the catalogue query returned at least one row. */
    method HasTable(tableName: string, answer: Answer) returns (r: Result<bool>)
      modifies this
      ensures log == old(log) + [Sql.Query(HasTableSql(tableName), [])]
      ensures answer.Err? ==> r == Err(answer.error)
      ensures answer.Ok? ==> r == Ok(|answer.value| > 0)
    {
      log := log + [Sql.Query(HasTableSql(tableName), [])];
      if answer.Err? {
        r := Err(answer.error);
      } else {
        r := Ok(|answer.value| > 0);
      }
    }

    /** True exactly when some returned row's `name` is the column name. */
    method HasColumn(tableName: string, columnName: string, answer: Answer) returns (r: Result<bool>)
      modifies this
      ensures log == old(log) + [Sql.Query(HasColumnSql(tableName), [])]
      ensures answer.Err? ==> r == Err(answer.error)
      ensures answer.Ok? ==> r.Ok? && (r.value <==>
        exists i :: 0 <= i < |answer.value| && Js.Lookup(answer.value[i], "name") == Some(Js.Str(columnName)))
    {
      log := log + [Sql.Query(HasColumnSql(tableName), [])];
      if answer.Err? {
        r := Err(answer.error);
      } else {
        r := Ok(SomeRowNamed(answer.value, columnName));
      }
    }

    method DropColumn(tableName: string, columnName: string, answer: Answer) returns (r: Result<()>)
      modifies this
      ensures log == old(log) + [Sql.Query(DropColumnSql(tableName, columnName), [])]
      ensures r == Sql.Done(answer)
    {
      r := Issue(DropColumnSql(tableName, columnName), answer);
    }

    method RenameTable(oldName: string, newName: string, answer: Answer) returns (r: Result<()>)
      modifies this
      ensures log == old(log) + [Sql.Query(RenameTableSql(oldName, newName), [])]
      ensures r == Sql.Done(answer)
    {
      r := Issue(RenameTableSql(oldName, newName), answer);
    }

    method RenameColumn(tableName: string, oldName: string, newName: string, answer: Answer) returns (r: Result<()>)
      modifies this
      ensures log == old(log) + [Sql.Query(RenameColumnSql(tableName, oldName, newName), [])]
      ensures r == Sql.Done(answer)
    {
      r := Issue(RenameColumnSql(tableName, oldName, newName), answer);
    }

    method ChangeColumnType(tableName: string, columnName: string, newType: string, answer: Answer) returns (r: Result<()>)
      modifies this
      ensures log == old(log) + [Sql.Query(ChangeColumnTypeSql(tableName, columnName, newType), [])]
      ensures r == Sql.Done(answer)
    {
      r := Issue(ChangeColumnTypeSql(tableName, columnName, newType), answer);
    }

    method AddConstraint(tableName: string, name: string, definition: string, answer: Answer) returns (r: Result<()>)
      modifies this
      ensures log == old(log) + [Sql.Query(AddConstraintSql(tableName, name, definition), [])]
      ensures r == Sql.Done(answer)
    {
      r := Issue(AddConstraintSql(tableName, name, definition), answer);
    }

    method DropConstraint(tableName: string, name: string, answer: Answer) returns (r: Result<()>)
      modifies this
      ensures log == old(log) + [Sql.Query(DropConstraintSql(tableName, name), [])]
      ensures r == Sql.Done(answer)
    {
      r := Issue(DropConstraintSql(tableName, name), answer);
    }

    method CreateIndex(tableName: string, indexName: string, columns: seq<string>, unique: bool, answer: Answer)
      returns (r: Result<()>)
      modifies this
      ensures log == old(log) + [Sql.Query(CreateIndexSql(tableName, indexName, columns, unique), [])]
      ensures r == Sql.Done(answer)
    {
      r := Issue(CreateIndexSql(tableName, indexName, columns, unique), answer);
    }

    method DropIndex(indexName: string, answer: Answer) returns (r: Result<()>)
      modifies this
      ensures log == old(log) + [Sql.Query(DropIndexSql(indexName), [])]
      ensures r == Sql.Done(answer)
    {
      r := Issue(DropIndexSql(indexName), answer);
    }
  }

  /** A non-unique index keeps the empty keyword between two spaces. */
  lemma CreateIndexKeyword(t: string, i: string, cols: seq<string>)
    ensures CreateIndexSql(t, i, cols, true) == "CREATE UNIQUE INDEX " + i + " ON " + t + " (" + Join(cols, ", ") + ")"
    ensures CreateIndexSql(t, i, cols, false) == "CREATE  INDEX " + i + " ON " + t + " (" + Join(cols, ", ") + ")"
  {
  }

  /** `create` and `table` differ only in the statement form their blueprint renders. */
  lemma CreateAndTableForms(t: string, callback: seq<Call>)
    ensures StartsWith(TableSql(Replay(Fresh(t, false), callback)), "CREATE TABLE ")
    ensures StartsWith(TableSql(Replay(Fresh(t, true), callback)), "ALTER TABLE ")
  {
    ReplayKeepsHeader(Fresh(t, false), callback);
    ReplayKeepsHeader(Fresh(t, true), callback);
    TableSqlForm(Replay(Fresh(t, false), callback));
    TableSqlForm(Replay(Fresh(t, true), callback));
  }
}
