# bunvel framework core, modelled in Dafny

Bunvel is a small web framework for the Bun runtime, written in TypeScript. It follows Laravel's layout. This project models its core:

- the schema builder (`Blueprint`, `Schema`) and the three SQL query builders (MySQL, PostgreSQL, SQLite), including the older MySQL builder;
- the database adapters and the factory that picks one, the metadata manager, and the active-record `Model`;
- the migration commands: `migrate`, `migrate:rollback`, `migrate:reset`, `migrate:refresh`, `migrate:status`, `make:migration`;
- the console: the `Command` base class with its signature parser, the command-line dispatcher and its output formatter;
- the configuration repository and the service that loads it;
- the service container `Application`;
- the HTTP router service;
- the support helpers `Str`, `helpers`, `functions` and `get_timestamp`.

Each core source file has one Dafny module; the file names follow the source names.

The model takes the source's own form:
- Classes whose methods update fields are Dafny classes (`Blueprint`, the query builders, `Application`, `RouterService`, `Cli`, the config repository).
- Each such method is proved against a function of the old state.
- Pure code becomes functions.

The database, the file system, the clock, the environment and the network are not modelled. They enter as parameters:
- the adapter's answer to a statement is given to each terminal call as a `Result` value;
- each statement a builder sends is recorded in a `log` field.

Three helper modules serve the rest:
- `Wrappers`: `Option` and `Result`;
- `Text`: string joining, splitting, padding and prefixes;
- `Js`: a JavaScript value with its truthiness and its `String(·)` rendering, where objects are insertion-ordered key/value sequences.

Integers are unbounded. Where the source converts a number to a string, the model uses the decimal form of an integer.

## Model

| member | source | states |
|---|---|---|
| Blueprints.ModifierTouchesLastColumnOnly | src/database/src/Blueprint.ts:149-159 | `nullable()` and `default(v)` change only the last column defined, and change nothing when no column exists |
| Blueprints.ColumnCallAppends | src/database/src/Blueprint.ts:67-117 | a column-defining call appends its columns after the existing ones; indexes, foreign keys and earlier columns are untouched |
| Blueprints.IncrementsColumn | src/database/src/Blueprint.ts:72-79 | `increments(n)` adds an INTEGER primary-key column with auto-increment set |
| Blueprints.StringDefaultLength | src/database/src/Blueprint.ts:89-91 | `string(n)` without a length is a VARCHAR of length 255 |
| Blueprints.TimestampsColumns | src/database/src/Blueprint.ts:113-117 | `timestamps()` appends `created_at` and then `updated_at`, both TIMESTAMP with no default |
| Blueprints.IndexCallAppendsOne | src/database/src/Blueprint.ts:119-141 | `primary`, `unique` and `index` append exactly one index of their kind; a single column name becomes a one-element list |
| Blueprints.StepForeignKeyCalls | src/database/src/Blueprint.ts:28-58 | `foreign(c)` stores an unfinished record for `c`; each builder call edits only the field it names, in the record it was created for |
| Blueprints.ForeignBuilderEditsStoredRecord | src/database/src/Blueprint.ts:143-147 | the record `foreign(c)` stores is the same one its builder's later `references`/`on`/`onDelete`/`onUpdate` calls edit, so the chained calls reach the rendered SQL |
| Blueprints.UnfinishedForeignKeySql | src/database/src/Blueprint.ts:221-227 | a foreign key whose builder was never called renders with an empty table and an empty column: `REFERENCES ()` |
| Blueprints.BuiltColumnsNeverUnsigned | src/database/src/Blueprint.ts:67-159 | no fluent call sets the unsigned flag, so no built table ever renders UNSIGNED |
| Blueprints.ReplayKeepsHeader | src/database/src/Blueprint.ts:60-65 | no sequence of fluent calls changes the table name or the choice between CREATE and ALTER |
| Blueprints.LengthShownExactly | src/database/src/Blueprint.ts:206 | a word in parentheses follows the name and type exactly when the length is truthy |
| Blueprints.ColumnFlagsShown | src/database/src/Blueprint.ts:204-213 | a column definition starts with name and type; a truthy length shows as `(len)`, and for a falsy one no later word starts with `(`; each of UNSIGNED, AUTO_INCREMENT, PRIMARY KEY shows exactly when its flag is set; NULL or NOT NULL always shows |
| Blueprints.RenderedClausesNonEmpty | src/database/src/Blueprint.ts:165-202 | every rendered column, index and foreign-key clause is non-empty, so `filter(Boolean)` drops none of them |
| Blueprints.TableSqlForm | src/database/src/Blueprint.ts:161-163 | `toSQL()` renders `ALTER TABLE …` exactly for an alter-mode blueprint and `CREATE TABLE …` exactly for the others |
| Blueprints.CreateSqlJoinsClauses | src/database/src/Blueprint.ts:165-182 | with at least one column, CREATE lists every column, then every index, then every foreign key, separated by `, ` and in parentheses |
| Blueprints.AlterSqlJoinsClauses | src/database/src/Blueprint.ts:184-202 | ALTER prefixes every column, index and foreign-key clause with `ADD ` and lists them separated by `, `; empty groups leave no separator behind |
| Blueprints.IndexSqlForms | src/database/src/Blueprint.ts:215-219 | a primary index renders as `PRIMARY KEY (…)`, a unique one as `UNIQUE INDEX (…)`, a plain one as `INDEX INDEX (…)` |
| Blueprints.CreateWithoutColumns | src/database/src/Blueprint.ts:165-182 | a CREATE with indexes but no columns opens its list with a stray `, ` |
| Blueprints.ForeignKeyBuilder.constructor | src/database/src/Blueprint.ts:31-33 | the builder refers to its blueprint and to the index of the record it edits |
| Blueprints.ForeignKeyBuilder.References | src/database/src/Blueprint.ts:35-38 | the blueprint's new state is the `references(column)` step applied to its old state |
| Blueprints.ForeignKeyBuilder.On | src/database/src/Blueprint.ts:40-43 | the blueprint's new state is the `on(table)` step applied to its old state |
| Blueprints.ForeignKeyBuilder.OnDelete | src/database/src/Blueprint.ts:45-48 | the blueprint's new state is the `onDelete(action)` step applied to its old state |
| Blueprints.ForeignKeyBuilder.OnUpdate | src/database/src/Blueprint.ts:50-53 | the blueprint's new state is the `onUpdate(action)` step applied to its old state |
| Blueprints.Blueprint.constructor | src/database/src/Blueprint.ts:60-65 | a new blueprint has the given table name and mode, with no columns, indexes or foreign keys |
| Blueprints.Blueprint.AddColumn | src/database/src/Blueprint.ts:67-70 | the column is appended; indexes and foreign keys are unchanged |
| Blueprints.Blueprint.Increments | src/database/src/Blueprint.ts:72-79 | the new state is the `increments` step on the old one |
| Blueprints.Blueprint.Integer | src/database/src/Blueprint.ts:81-83 | the new state is the `integer` step on the old one |
| Blueprints.Blueprint.BigInteger | src/database/src/Blueprint.ts:85-87 | the new state is the `bigInteger` step on the old one |
| Blueprints.Blueprint.StringCol | src/database/src/Blueprint.ts:89-91 | the new state is the `string` step on the old one |
| Blueprints.Blueprint.TextCol | src/database/src/Blueprint.ts:93-95 | the new state is the `text` step on the old one |
| Blueprints.Blueprint.BooleanCol | src/database/src/Blueprint.ts:97-99 | the new state is the `boolean` step on the old one |
| Blueprints.Blueprint.DateCol | src/database/src/Blueprint.ts:101-103 | the new state is the `date` step on the old one |
| Blueprints.Blueprint.DateTimeCol | src/database/src/Blueprint.ts:105-107 | the new state is the `dateTime` step on the old one |
| Blueprints.Blueprint.TimestampCol | src/database/src/Blueprint.ts:109-111 | the new state is the `timestamp` step on the old one |
| Blueprints.Blueprint.Timestamps | src/database/src/Blueprint.ts:113-117 | the new state is the `timestamps` step on the old one |
| Blueprints.Blueprint.AddIndex | src/database/src/Blueprint.ts:119-141 | one index of the given kind is appended over the given columns; columns and foreign keys are unchanged |
| Blueprints.Blueprint.PrimaryIdx | src/database/src/Blueprint.ts:119-125 | the new state is the `primary` step on the old one |
| Blueprints.Blueprint.UniqueIdx | src/database/src/Blueprint.ts:127-133 | the new state is the `unique` step on the old one |
| Blueprints.Blueprint.PlainIdx | src/database/src/Blueprint.ts:135-141 | the new state is the `index` step on the old one |
| Blueprints.Blueprint.Foreign | src/database/src/Blueprint.ts:143-147 | the unfinished record is stored at once; the returned fresh builder edits that record, by its index, in this blueprint |
| Blueprints.Blueprint.Nullable | src/database/src/Blueprint.ts:149-153 | the new state is the `nullable` step on the old one |
| Blueprints.Blueprint.Default | src/database/src/Blueprint.ts:155-159 | the new state is the `default(v)` step on the old one |
| Blueprints.Blueprint.Apply | src/database/src/Blueprint.ts:28-159 | performing any one fluent call, through a builder for foreign-key calls, is its step on the old state |
| Blueprints.Blueprint.ApplyAll | src/database/src/Schema.ts:12 | running a callback's fluent calls in order is replaying them on the old state |
| SchemaFacade.SomeRowNamed | src/database/src/Schema.ts:45 | true exactly when some row has a `name` property equal to the column name |
| SchemaFacade.Schema.constructor | src/database/src/Schema.ts:5 | a new schema has sent no statement |
| SchemaFacade.Schema.Create | src/database/src/Schema.ts:7-15 | sends one statement: the SQL of a fresh CREATE blueprint after the callback's calls; the outcome is the adapter's |
| SchemaFacade.Schema.Table | src/database/src/Schema.ts:17-25 | sends one statement: the SQL of a fresh ALTER blueprint after the callback's calls |
| SchemaFacade.Schema.Drop | src/database/src/Schema.ts:27-30 | sends `DROP TABLE IF EXISTS t` |
| SchemaFacade.Schema.DropIfExists | src/database/src/Schema.ts:32-34 | sends exactly what `drop` sends |
| SchemaFacade.Schema.HasTable | src/database/src/Schema.ts:36-40 | queries the SQLite catalogue for the table; true exactly when at least one row came back; an adapter error is passed on |
| SchemaFacade.Schema.HasColumn | src/database/src/Schema.ts:42-46 | sends `PRAGMA table_info(t)`; true exactly when some returned row is named like the column; an adapter error is passed on |
| SchemaFacade.Schema.DropColumn | src/database/src/Schema.ts:48-53 | sends `ALTER TABLE t DROP COLUMN c` |
| SchemaFacade.Schema.RenameTable | src/database/src/Schema.ts:55-58 | sends `ALTER TABLE old RENAME TO new` |
| SchemaFacade.Schema.RenameColumn | src/database/src/Schema.ts:60-69 | sends the rename-column statement for the table |
| SchemaFacade.Schema.ChangeColumnType | src/database/src/Schema.ts:71-80 | sends the alter-column-type statement |
| SchemaFacade.Schema.AddConstraint | src/database/src/Schema.ts:82-89 | sends the add-constraint statement |
| SchemaFacade.Schema.DropConstraint | src/database/src/Schema.ts:91-99 | sends the drop-constraint statement |
| SchemaFacade.Schema.CreateIndex | src/database/src/Schema.ts:101-112 | sends the create-index statement, with `UNIQUE` exactly when asked for |
| SchemaFacade.Schema.DropIndex | src/database/src/Schema.ts:114-117 | sends `DROP INDEX IF EXISTS i` |
| SchemaFacade.CreateIndexKeyword | src/database/src/Schema.ts:101-112 | a unique index reads `CREATE UNIQUE INDEX i ON t (cols)`; a non-unique one keeps two spaces where the keyword would be |
| SchemaFacade.CreateAndTableForms | src/database/src/Schema.ts:7-25 | `create` always sends a CREATE TABLE statement and `table` an ALTER TABLE statement, whatever the callback does |
| MySqlBuilder.MySqlQueryBuilder.constructor | src/database/src/query-builder/MySQLQueryBuilder.ts.ts:11-14 | a new builder has no table, an empty query and no parameters, and has sent nothing |
| MySqlBuilder.MySqlQueryBuilder.Table | src/database/src/query-builder/MySQLQueryBuilder.ts.ts:16-20 | sets the table name and changes nothing else |
| MySqlBuilder.MySqlQueryBuilder.Join | src/database/src/query-builder/MySQLQueryBuilder.ts.ts:58-67 | appends ` JOIN t ON c1 op c2` to the query; given placeholder-free identifiers it keeps every `?` matched by one parameter |
| MySqlBuilder.MySqlQueryBuilder.LeftJoin | src/database/src/query-builder/MySQLQueryBuilder.ts.ts:69-78 | appends ` LEFT JOIN t ON c1 op c2` to the query; given placeholder-free identifiers it keeps every `?` matched by one parameter |
| MySqlBuilder.MySqlQueryBuilder.RightJoin | src/database/src/query-builder/MySQLQueryBuilder.ts.ts:80-89 | appends ` RIGHT JOIN t ON c1 op c2` to the query; given placeholder-free identifiers it keeps every `?` matched by one parameter |
| MySqlBuilder.MySqlQueryBuilder.GroupBy | src/database/src/query-builder/MySQLQueryBuilder.ts.ts:91-95 | appends ` GROUP BY` and the column list; it keeps every `?` matched by one parameter |
| MySqlBuilder.MySqlQueryBuilder.OrderBy | src/database/src/query-builder/MySQLQueryBuilder.ts.ts:104-108 | appends ` ORDER BY column direction`; it keeps every `?` matched by one parameter |
| MySqlBuilder.MySqlQueryBuilder.Limit | src/database/src/query-builder/MySQLQueryBuilder.ts.ts:110-114 | appends ` LIMIT n`; it keeps every `?` matched by one parameter |
| MySqlBuilder.MySqlQueryBuilder.Offset | src/database/src/query-builder/MySQLQueryBuilder.ts.ts:116-120 | appends ` OFFSET n`; it keeps every `?` matched by one parameter |
| MySqlBuilder.MySqlQueryBuilder.Select | src/database/src/query-builder/MySQLQueryBuilder.ts.ts:22-27 | throws "Table name not set" without a table, leaving the state as it was; otherwise the query becomes `SELECT cols FROM t`, and with no parameters yet the builder is balanced |
| MySqlBuilder.MySqlQueryBuilder.Distinct | src/database/src/query-builder/MySQLQueryBuilder.ts.ts:29-34 | the same as `select` with `SELECT DISTINCT` |
| MySqlBuilder.MySqlQueryBuilder.Where | src/database/src/query-builder/MySQLQueryBuilder.ts.ts:36-46 | appends ` WHERE c op ?` for the first condition and ` AND c op ?` after one, pushes the value and sets the where flag; it keeps every `?` matched by one parameter |
| MySqlBuilder.MySqlQueryBuilder.OrWhere | src/database/src/query-builder/MySQLQueryBuilder.ts.ts:48-56 | throws when no where came before, changing nothing; otherwise appends ` OR c op ?` and pushes the value; it keeps every `?` matched by one parameter |
| MySqlBuilder.MySqlQueryBuilder.Having | src/database/src/query-builder/MySQLQueryBuilder.ts.ts:97-102 | appends ` HAVING c op ?` and pushes the value; it keeps every `?` matched by one parameter |
| MySqlBuilder.MySqlQueryBuilder.Count | src/database/src/query-builder/MySQLQueryBuilder.ts.ts:122-127 | throws without a table; otherwise the query becomes `SELECT COUNT(c) FROM t` |
| MySqlBuilder.MySqlQueryBuilder.Get | src/database/src/query-builder/MySQLQueryBuilder.ts.ts:129-135 | throws without a table; otherwise sends the query with its parameters, returns the adapter's rows and clears query, parameters and where flag once the adapter has answered |
| MySqlBuilder.MySqlQueryBuilder.First | src/database/src/query-builder/MySQLQueryBuilder.ts.ts:137-141 | appends ` LIMIT 1`, then behaves as `get`; the result is the first row, or null when there is none |
| MySqlBuilder.MySqlQueryBuilder.Insert | src/database/src/query-builder/MySQLQueryBuilder.ts.ts:144-166 | throws without a table, and for an empty array (no first row); otherwise sends the insert the source builds for a row object or an array of rows, then clears |
| MySqlBuilder.MySqlQueryBuilder.Update | src/database/src/query-builder/MySQLQueryBuilder.ts.ts:169-179 | throws without a table or without a where; otherwise sends `UPDATE t SET k = ?, …` with the data's values followed by the where parameters, then clears |
| MySqlBuilder.MySqlQueryBuilder.Delete | src/database/src/query-builder/MySQLQueryBuilder.ts.ts:182-188 | throws without a table or without a where; otherwise sends `DELETE FROM t` with the where parameters, then clears |
| MySqlBuilder.MySqlQueryBuilder.Truncate | src/database/src/query-builder/MySQLQueryBuilder.ts.ts:191-196 | throws without a table; otherwise sends `TRUNCATE TABLE t` without parameters, then clears |
| MySqlBuilder.MySqlQueryBuilder.Clear | src/database/src/query-builder/MySQLQueryBuilder.ts.ts:199-203 | empties query, parameters and where flag, keeping the table; the empty builder is balanced |
| MySqlBuilder.InsertCallOf | src/database/src/query-builder/MySQLQueryBuilder.ts.ts:144-163 | for a row object the insert carries one `?` per value; for an array it is the batch insert as written |
| MySqlBuilder.BatchInsertCall | src/database/src/query-builder/MySQLQueryBuilder.ts.ts:146-155 | the batch insert's parameters are all rows' values in order, under the first row's column list |
| MySqlBuilder.BatchMarksPerRow | src/database/src/query-builder/MySQLQueryBuilder.ts.ts:148-155 | as written, a batch of `N` rows with `k` values each has `N` placeholders for `N·k` parameters |
| MySqlBuilder.GroupedInsertCall | src/database/src/query-builder/MySQLQueryBuilder.ts.ts:146-155 | the batch insert with one `(?, …, ?)` group per row carries all rows' values |
| MySqlBuilder.GroupedInsertBalanced | src/database/src/query-builder/MySQLQueryBuilder.ts.ts:146-155 | with one group per row, the number of `?` equals the number of parameters |
| PostgresBuilder.PostgreSqlQueryBuilder.constructor | src/database/src/query-builder/PostgreSQLQueryBuilder.ts:12-14 | a new builder has no table, an empty query and no parameters, and has sent nothing |
| PostgresBuilder.PostgreSqlQueryBuilder.Table | src/database/src/query-builder/PostgreSQLQueryBuilder.ts:16-19 | sets the table name and changes nothing else |
| PostgresBuilder.PostgreSqlQueryBuilder.Join | src/database/src/query-builder/PostgreSQLQueryBuilder.ts:46-54 | appends ` JOIN t ON c1 op c2` to the query; given placeholder-free identifiers it keeps the placeholders numbered `$1 … $n` for the `n` parameters |
| PostgresBuilder.PostgreSqlQueryBuilder.LeftJoin | src/database/src/query-builder/PostgreSQLQueryBuilder.ts:56-64 | appends ` LEFT JOIN t ON c1 op c2` to the query; given placeholder-free identifiers it keeps the placeholders numbered `$1 … $n` for the `n` parameters |
| PostgresBuilder.PostgreSqlQueryBuilder.GroupBy | src/database/src/query-builder/PostgreSQLQueryBuilder.ts:66-69 | appends ` GROUP BY` and the column list; it keeps the placeholders numbered `$1 … $n` for the `n` parameters |
| PostgresBuilder.PostgreSqlQueryBuilder.OrderBy | src/database/src/query-builder/PostgreSQLQueryBuilder.ts:77-80 | appends ` ORDER BY column direction`; it keeps the placeholders numbered `$1 … $n` for the `n` parameters |
| PostgresBuilder.PostgreSqlQueryBuilder.Limit | src/database/src/query-builder/PostgreSQLQueryBuilder.ts:82-85 | appends ` LIMIT n`; it keeps the placeholders numbered `$1 … $n` for the `n` parameters |
| PostgresBuilder.PostgreSqlQueryBuilder.Offset | src/database/src/query-builder/PostgreSQLQueryBuilder.ts:87-90 | appends ` OFFSET n`; it keeps the placeholders numbered `$1 … $n` for the `n` parameters |
| PostgresBuilder.PostgreSqlQueryBuilder.Select | src/database/src/query-builder/PostgreSQLQueryBuilder.ts:21-26 | throws without a table, changing nothing; otherwise the query becomes `SELECT cols FROM t`, with `*` for an empty column list |
| PostgresBuilder.PostgreSqlQueryBuilder.Where | src/database/src/query-builder/PostgreSQLQueryBuilder.ts:28-34 | appends ` WHERE` or ` AND` with the placeholder numbered one past the current parameters, then pushes the value; it keeps the placeholders numbered `$1 … $n` for the `n` parameters |
| PostgresBuilder.PostgreSqlQueryBuilder.AndWhere | src/database/src/query-builder/PostgreSQLQueryBuilder.ts:36-38 | is exactly `where` |
| PostgresBuilder.PostgreSqlQueryBuilder.OrWhere | src/database/src/query-builder/PostgreSQLQueryBuilder.ts:40-44 | appends ` OR c op $n` with no guard and pushes the value; it keeps the placeholders numbered `$1 … $n` for the `n` parameters |
| PostgresBuilder.PostgreSqlQueryBuilder.Having | src/database/src/query-builder/PostgreSQLQueryBuilder.ts:71-75 | appends ` HAVING c op $n` and pushes the value; it keeps the placeholders numbered `$1 … $n` for the `n` parameters |
| PostgresBuilder.PostgreSqlQueryBuilder.Get | src/database/src/query-builder/PostgreSQLQueryBuilder.ts:92-95 | throws without a table; otherwise sends the query with its parameters and keeps both afterwards |
| PostgresBuilder.PostgreSqlQueryBuilder.First | src/database/src/query-builder/PostgreSQLQueryBuilder.ts:97-101 | appends ` LIMIT 1`, then behaves as `get`; the result is the first row, or null |
| PostgresBuilder.PostgreSqlQueryBuilder.Insert | src/database/src/query-builder/PostgreSQLQueryBuilder.ts:103-132 | no table check (a missing table is rendered `null`); an empty array throws; otherwise sends the insert whose placeholders are `$1 … $n` for its `n` parameters |
| PostgresBuilder.PostgreSqlQueryBuilder.Update | src/database/src/query-builder/PostgreSQLQueryBuilder.ts:134-142 | throws without a table; no where guard: sends `UPDATE t SET k1 = $1, …` with the data's values only |
| PostgresBuilder.PostgreSqlQueryBuilder.Delete | src/database/src/query-builder/PostgreSQLQueryBuilder.ts:144-148 | throws without a table; no where guard: sends `DELETE FROM t` with whatever parameters were pushed |
| PostgresBuilder.PostgreSqlQueryBuilder.Truncate | src/database/src/query-builder/PostgreSQLQueryBuilder.ts:150-154 | throws without a table; otherwise sends `TRUNCATE TABLE t` without parameters |
| PostgresBuilder.PostgreSqlQueryBuilder.Reset | src/database/src/query-builder/PostgreSQLQueryBuilder.ts:156-161 | empties query, parameters and where flag; the empty builder is numbered |
| PostgresBuilder.NumberedInsertCallOf | src/database/src/query-builder/PostgreSQLQueryBuilder.ts:103-129 | the insert of an array carries all rows' values, of one row its values; its placeholders are numbered `$1 … $n` in order |
| PostgresBuilder.BatchValues | src/database/src/query-builder/PostgreSQLQueryBuilder.ts:110-118 | the running `paramIndex++` loop builds exactly the text of one numbered group per row, numbered on across rows |
| SqliteBuilder.SqliteQueryBuilder.constructor | src/database/src/query-builder/SQLiteQueryBuilder.ts:11-13 | a new builder has no table, an empty query and no parameters, and has sent nothing |
| SqliteBuilder.SqliteQueryBuilder.Table | src/database/src/query-builder/SQLiteQueryBuilder.ts:15-18 | sets the table name and changes nothing else |
| SqliteBuilder.SqliteQueryBuilder.Join | src/database/src/query-builder/SQLiteQueryBuilder.ts:45-53 | appends ` JOIN t ON c1 op c2` to the query; given placeholder-free identifiers it keeps every `?` matched by one parameter |
| SqliteBuilder.SqliteQueryBuilder.LeftJoin | src/database/src/query-builder/SQLiteQueryBuilder.ts:55-63 | appends ` LEFT JOIN t ON c1 op c2` to the query; given placeholder-free identifiers it keeps every `?` matched by one parameter |
| SqliteBuilder.SqliteQueryBuilder.GroupBy | src/database/src/query-builder/SQLiteQueryBuilder.ts:65-68 | appends ` GROUP BY` and the column list; it keeps every `?` matched by one parameter |
| SqliteBuilder.SqliteQueryBuilder.OrderBy | src/database/src/query-builder/SQLiteQueryBuilder.ts:76-79 | appends ` ORDER BY column direction`; it keeps every `?` matched by one parameter |
| SqliteBuilder.SqliteQueryBuilder.Limit | src/database/src/query-builder/SQLiteQueryBuilder.ts:81-84 | appends ` LIMIT n`; it keeps every `?` matched by one parameter |
| SqliteBuilder.SqliteQueryBuilder.Offset | src/database/src/query-builder/SQLiteQueryBuilder.ts:86-89 | appends ` OFFSET n`; it keeps every `?` matched by one parameter |
| SqliteBuilder.SqliteQueryBuilder.Select | src/database/src/query-builder/SQLiteQueryBuilder.ts:20-25 | throws without a table, changing nothing; otherwise `SELECT cols FROM t`, with `*` for an empty column list |
| SqliteBuilder.SqliteQueryBuilder.Where | src/database/src/query-builder/SQLiteQueryBuilder.ts:27-33 | appends ` WHERE c op ?` or ` AND c op ?` and pushes the value; it keeps every `?` matched by one parameter |
| SqliteBuilder.SqliteQueryBuilder.AndWhere | src/database/src/query-builder/SQLiteQueryBuilder.ts:35-37 | is exactly `where` |
| SqliteBuilder.SqliteQueryBuilder.OrWhere | src/database/src/query-builder/SQLiteQueryBuilder.ts:39-43 | appends ` OR c op ?` with no guard and pushes the value; it keeps every `?` matched by one parameter |
| SqliteBuilder.SqliteQueryBuilder.Having | src/database/src/query-builder/SQLiteQueryBuilder.ts:70-74 | appends ` HAVING c op ?` and pushes the value; it keeps every `?` matched by one parameter |
| SqliteBuilder.SqliteQueryBuilder.Get | src/database/src/query-builder/SQLiteQueryBuilder.ts:91-94 | throws without a table; otherwise sends the query with its parameters and keeps both |
| SqliteBuilder.SqliteQueryBuilder.First | src/database/src/query-builder/SQLiteQueryBuilder.ts:96-100 | appends ` LIMIT 1`, then behaves as `get`; the result is the first row, or null |
| SqliteBuilder.SqliteQueryBuilder.Insert | src/database/src/query-builder/SQLiteQueryBuilder.ts:102-111 | throws without a table; otherwise sends the insert of one row object, one `?` per value with the values as parameters |
| SqliteBuilder.SqliteQueryBuilder.Update | src/database/src/query-builder/SQLiteQueryBuilder.ts:113-121 | throws without a table; no where guard: `UPDATE t SET k = ?, …` with the data's values only, and balanced |
| SqliteBuilder.SqliteQueryBuilder.Delete | src/database/src/query-builder/SQLiteQueryBuilder.ts:123-127 | throws without a table; otherwise `DELETE FROM t` with the pushed parameters |
| SqliteBuilder.SqliteQueryBuilder.Truncate | src/database/src/query-builder/SQLiteQueryBuilder.ts:129-133 | throws without a table; otherwise `DELETE FROM t` without parameters |
| LegacyMySqlBuilder.MySqlQueryBuilder.constructor | src/database/src/MySQLQueryBuilder.ts.ts:11-14 | a new builder has no table, an empty query and no parameters, and has sent nothing |
| LegacyMySqlBuilder.MySqlQueryBuilder.Table | src/database/src/MySQLQueryBuilder.ts.ts:16-20 | sets the table name and changes nothing else |
| LegacyMySqlBuilder.MySqlQueryBuilder.Join | src/database/src/MySQLQueryBuilder.ts.ts:60-69 | appends ` JOIN t ON c1 op c2` to the query; given placeholder-free identifiers it keeps every `?` matched by one parameter |
| LegacyMySqlBuilder.MySqlQueryBuilder.LeftJoin | src/database/src/MySQLQueryBuilder.ts.ts:71-80 | appends ` LEFT JOIN t ON c1 op c2` to the query; given placeholder-free identifiers it keeps every `?` matched by one parameter |
| LegacyMySqlBuilder.MySqlQueryBuilder.RightJoin | src/database/src/MySQLQueryBuilder.ts.ts:82-91 | appends ` RIGHT JOIN t ON c1 op c2` to the query; given placeholder-free identifiers it keeps every `?` matched by one parameter |
| LegacyMySqlBuilder.MySqlQueryBuilder.GroupBy | src/database/src/MySQLQueryBuilder.ts.ts:93-97 | appends ` GROUP BY` and the column list; it keeps every `?` matched by one parameter |
| LegacyMySqlBuilder.MySqlQueryBuilder.OrderBy | src/database/src/MySQLQueryBuilder.ts.ts:106-110 | appends ` ORDER BY column direction`; it keeps every `?` matched by one parameter |
| LegacyMySqlBuilder.MySqlQueryBuilder.Limit | src/database/src/MySQLQueryBuilder.ts.ts:112-116 | appends ` LIMIT n`; it keeps every `?` matched by one parameter |
| LegacyMySqlBuilder.MySqlQueryBuilder.Offset | src/database/src/MySQLQueryBuilder.ts.ts:118-122 | appends ` OFFSET n`; it keeps every `?` matched by one parameter |
| LegacyMySqlBuilder.MySqlQueryBuilder.Select | src/database/src/MySQLQueryBuilder.ts.ts:22-27 | throws without a table, changing nothing; otherwise `SELECT cols FROM t` |
| LegacyMySqlBuilder.MySqlQueryBuilder.Distinct | src/database/src/MySQLQueryBuilder.ts.ts:29-34 | the same with `SELECT DISTINCT` |
| LegacyMySqlBuilder.MySqlQueryBuilder.Where | src/database/src/MySQLQueryBuilder.ts.ts:36-46 | appends ` WHERE c op ?` first and ` AND c op ?` after, pushes the value and sets the where flag; it keeps every `?` matched by one parameter |
| LegacyMySqlBuilder.MySqlQueryBuilder.AndWhere | src/database/src/MySQLQueryBuilder.ts.ts:48-51 | is exactly `where` |
| LegacyMySqlBuilder.MySqlQueryBuilder.OrWhere | src/database/src/MySQLQueryBuilder.ts.ts:53-58 | appends ` OR c op ?` with no guard and pushes the value; it keeps every `?` matched by one parameter |
| LegacyMySqlBuilder.MySqlQueryBuilder.Having | src/database/src/MySQLQueryBuilder.ts.ts:99-104 | appends ` HAVING c op ?` and pushes the value; it keeps every `?` matched by one parameter |
| LegacyMySqlBuilder.MySqlQueryBuilder.Count | src/database/src/MySQLQueryBuilder.ts.ts:124-128 | no table check: `SELECT COUNT(c) FROM t`, with `null` for a missing table |
| LegacyMySqlBuilder.MySqlQueryBuilder.Get | src/database/src/MySQLQueryBuilder.ts.ts:130-134 | no table check; sends the query with its parameters, returns the adapter's answer and clears once it answered |
| LegacyMySqlBuilder.MySqlQueryBuilder.First | src/database/src/MySQLQueryBuilder.ts.ts:137-141 | appends ` LIMIT 1`, then behaves as `get`; the result is the first row, or null |
| LegacyMySqlBuilder.MySqlQueryBuilder.Insert | src/database/src/MySQLQueryBuilder.ts.ts:144-154 | throws without a table; otherwise the one-row insert with one `?` per value, then clears |
| LegacyMySqlBuilder.MySqlQueryBuilder.Update | src/database/src/MySQLQueryBuilder.ts.ts:157-169 | throws without a table; without a where it throws after the query text was already rewritten to the UPDATE; otherwise sends it with the data's values then the where parameters, and clears |
| LegacyMySqlBuilder.MySqlQueryBuilder.Delete | src/database/src/MySQLQueryBuilder.ts.ts:172-180 | throws without a table or without a where; otherwise `DELETE FROM t` with the where parameters, then clears |
| LegacyMySqlBuilder.MySqlQueryBuilder.Truncate | src/database/src/MySQLQueryBuilder.ts.ts:183-188 | throws without a table; otherwise `TRUNCATE TABLE t` with the accumulated parameters, then clears |
| LegacyMySqlBuilder.MySqlQueryBuilder.Clear | src/database/src/MySQLQueryBuilder.ts.ts:191-195 | empties query, parameters and where flag; the empty builder is balanced |
| QueryText.Finish | src/database/src/query-builder/MySQLQueryBuilder.ts.ts:129-135 | after a terminal call the call is logged and the table kept; a clearing builder empties query, parameters and where flag only once the adapter answered |
| QueryText.FirstRow | src/database/src/query-builder/MySQLQueryBuilder.ts.ts:137-141 | `result[0] \|\| null` is null exactly for no rows and the first row otherwise |
| QueryText.FirstOf | src/database/src/query-builder/MySQLQueryBuilder.ts.ts:137-141 | `first` fails exactly when `get` fails and otherwise returns the first row or null |
| QueryText.StarList | src/database/src/query-builder/PostgreSQLQueryBuilder.ts:23 | an empty column list renders `*`, any other its `, `-joined names |
| QueryText.ConditionMarks | src/database/src/query-builder/MySQLQueryBuilder.ts.ts:36-46 | a `?` condition carries exactly one `?` and no `$n` |
| QueryText.NumberedConditionMarks | src/database/src/query-builder/PostgreSQLQueryBuilder.ts:28-34 | a numbered condition `$n` carries exactly the number `n` and no `?` |
| QueryText.Append | src/database/src/query-builder/MySQLQueryBuilder.ts.ts:36-120 | appending a fragment puts its placeholders after the query's own, in both dialects |
| QueryText.NumberedStep | src/database/src/query-builder/PostgreSQLQueryBuilder.ts:28-44 | appending the condition numbered one past `n` parameters continues the numbering `$1 … $n+1` |
| QueryText.InsertMarks | src/database/src/query-builder/MySQLQueryBuilder.ts.ts:144-163 | the placeholders of an insert are exactly those of its VALUES text |
| QueryText.DollarListNumbers | src/database/src/query-builder/PostgreSQLQueryBuilder.ts:123-127 | `$lo, …, $lo+k-1` numbers its placeholders consecutively from `lo` |
| QueryText.ValueGroupsNumbers | src/database/src/query-builder/PostgreSQLQueryBuilder.ts:110-118 | the groups of a batch number their placeholders `$1 … $N` over all values of all rows |
| QueryText.BatchValuesNumbers | src/database/src/query-builder/PostgreSQLQueryBuilder.ts:110-120 | the batch VALUES text is numbered `$1 … $N` for the `N` flattened values |
| QueryText.RecordInsertCall | src/database/src/query-builder/SQLiteQueryBuilder.ts:102-110 | a one-row insert has the row's values as parameters and one `?` per parameter |
| QueryText.SetClauseMarks | src/database/src/query-builder/MySQLQueryBuilder.ts.ts:172-174 | `k1 = ?, …` has one `?` per key |
| QueryText.NumberedSetClauseNumbers | src/database/src/query-builder/PostgreSQLQueryBuilder.ts:136-138 | `k1 = $1, …` numbers its placeholders `$1 … $k` |
| QueryText.UpdateCall | src/database/src/query-builder/MySQLQueryBuilder.ts.ts:169-178 | the update as written: the SET list, with the data's values followed by the where parameters |
| QueryText.UpdateDropsWhere | src/database/src/query-builder/MySQLQueryBuilder.ts.ts:175-176 | the update as written has a `?` per data value only, but passes the where parameters too, so it has more parameters than placeholders when any where was given |
| QueryText.UpdateWhereCall | src/database/src/query-builder/MySQLQueryBuilder.ts.ts:169-178 | the update with the collected where text appended ends with that text |
| QueryText.UpdateWhereBalanced | src/database/src/query-builder/MySQLQueryBuilder.ts.ts:169-178 | with the where text kept, every parameter of the update has its `?` |
| QueryText.NumberedUpdateCall | src/database/src/query-builder/PostgreSQLQueryBuilder.ts:134-141 | the `$n` update has the data's values as parameters and the numbering `$1 … $k` |
| QueryText.DeleteCall | src/database/src/query-builder/MySQLQueryBuilder.ts.ts:182-187 | the delete as written: `DELETE FROM t` with the pushed parameters |
| QueryText.DeleteDropsWhere | src/database/src/query-builder/MySQLQueryBuilder.ts.ts:185-186 | as written the delete statement has no placeholder in either dialect, so every where parameter it passes is unmatched |
| QueryText.DeleteWhereCall | src/database/src/query-builder/MySQLQueryBuilder.ts.ts:182-187 | the delete with the collected where text appended ends with that text |
| QueryText.DeleteWhereBalanced | src/database/src/query-builder/MySQLQueryBuilder.ts.ts:182-187 | with the where text kept, the parameters match its placeholders in the `?` and the `$n` dialect |
| Adapters.DriverConfig | src/database/src/adapter/MySQLAdapter.ts:24 | the configuration without `type`: the `type` key is gone and every other key keeps its value |
| Adapters.Relayed | src/database/src/adapter/MySQLAdapter.ts:53-59 | a call that reached the driver answers with the driver's rows, or fails with the adapter's fixed message whatever the driver threw |
| MySqlAdapter.MySqlAdapter.constructor | src/database/src/adapter/MySQLAdapter.ts:4-6 | driver `mysql`, no connection, nothing sent |
| MySqlAdapter.MySqlAdapter.Connect | src/database/src/adapter/MySQLAdapter.ts:16-31 | an open adapter only warns and stays as it is; otherwise a successful attempt connects with the configuration minus `type`, and a failed one leaves it closed with "Failed to establish a MySQL connection." |
| MySqlAdapter.MySqlAdapter.Disconnect | src/database/src/adapter/MySQLAdapter.ts:33-42 | the connection is closed whatever `end()` answers, and the call never fails |
| MySqlAdapter.MySqlAdapter.EnsureConnected | src/database/src/adapter/MySQLAdapter.ts:44-48 | succeeds exactly when a connection is open; otherwise fails with the not-connected message |
| MySqlAdapter.MySqlAdapter.Query | src/database/src/adapter/MySQLAdapter.ts:50-60 | a closed adapter refuses before the driver sees the call; an open one sends the query and relays its rows or "Database query execution failed." |
| MySqlAdapter.MySqlAdapter.Execute | src/database/src/adapter/MySQLAdapter.ts:62-72 | the same for `execute`, failing with "Database execution failed." |
| PostgresAdapter.PostgreSqlAdapter.constructor | src/database/src/adapter/PostgreSQLAdapter.ts:5-7 | driver `postgresql`, no client, nothing sent |
| PostgresAdapter.PostgreSqlAdapter.Connect | src/database/src/adapter/PostgreSQLAdapter.ts:17-31 | the client and the answer are those of `ConnectStep`: an open adapter only warns; a failed load leaves no client; a refused open keeps the client built from the configuration minus `type` and still fails with the fixed message; a successful one keeps that client |
| PostgresAdapter.RefusedOpenKeepsClient | src/database/src/adapter/PostgreSQLAdapter.ts:18-29 | a refused open fails but leaves a client, so the next `connect` answers success whatever the driver does |
| PostgresAdapter.IntendedConnectHonest | src/database/src/adapter/PostgreSQLAdapter.ts:17-31 | with the client cleared on a refusal, a client exists exactly when one existed or the call succeeded, a fresh call succeeds exactly when the connection opens, and a retry is a fresh attempt; it agrees with the code except on a refused open |
| PostgresAdapter.PostgreSqlAdapter.Disconnect | src/database/src/adapter/PostgreSQLAdapter.ts:33-42 | the client is dropped whatever `end()` answers, and the call never fails |
| PostgresAdapter.PostgreSqlAdapter.EnsureConnected | src/database/src/adapter/PostgreSQLAdapter.ts:44-48 | succeeds exactly when a client exists |
| PostgresAdapter.PostgreSqlAdapter.Query | src/database/src/adapter/PostgreSQLAdapter.ts:50-60 | refuses when closed; otherwise sends the query and relays its rows or the fixed query failure |
| PostgresAdapter.PostgreSqlAdapter.Execute | src/database/src/adapter/PostgreSQLAdapter.ts:62-73 | refuses when closed; otherwise goes through `client.query` too and relays its rows or the fixed execution failure |
| SqliteAdapter.DatabaseFile | src/database/src/adapter/SQLiteAdapter.ts:17 | the database file is the database directory, a `/`, the configured name and `.sqlite` |
| SqliteAdapter.DatabaseFileName | src/database/src/adapter/SQLiteAdapter.ts:17 | the configured database name can be read back from the file path, between the directory and the suffix |
| SqliteAdapter.SqliteAdapter.constructor | src/database/src/adapter/SQLiteAdapter.ts:5-7 | driver `sqlite`, no database, nothing sent |
| SqliteAdapter.SqliteAdapter.Connect | src/database/src/adapter/SQLiteAdapter.ts:9-22 | an open adapter only warns; otherwise a successful attempt opens the database file, and a failed one leaves it closed with the fixed message |
| SqliteAdapter.SqliteAdapter.Disconnect | src/database/src/adapter/SQLiteAdapter.ts:24-33 | the database is closed whatever `close()` answers, and the call never fails |
| SqliteAdapter.SqliteAdapter.EnsureConnected | src/database/src/adapter/SQLiteAdapter.ts:35-39 | succeeds exactly when a database is open |
| SqliteAdapter.SqliteAdapter.Query | src/database/src/adapter/SQLiteAdapter.ts:41-50 | refuses when closed; otherwise runs `all` with the parameters and relays its rows or the fixed failure |
| SqliteAdapter.SqliteAdapter.Execute | src/database/src/adapter/SQLiteAdapter.ts:52-61 | refuses when closed; otherwise runs `run` with the parameters and relays its answer or the fixed failure |
| DatabaseFactory.CreateAdapter | src/database/src/DatabaseFactory.ts:12-23 | succeeds exactly for the type strings `mysql`, `sqlite` and `postgresql`, giving the adapter named by it; any other type fails with "Unsupported database type: " and the type |
| DatabaseFactory.CreateQueryBuilder | src/database/src/DatabaseFactory.ts:25-35 | every adapter gets the builder of its own dialect; anything else fails with "Unsupported database adapter" |
| DatabaseFactory.CreateAdapterSelects | src/database/src/DatabaseFactory.ts:13-19 | each adapter is made for exactly one type string, both directions |
| DatabaseFactory.PgRefused | src/database/src/DatabaseFactory.ts:20-21 | the type `pg` is refused with "Unsupported database type: pg" |
| DatabaseFactory.FactoryPairs | src/database/src/DatabaseFactory.ts:12-35 | whatever adapter the factory makes, asking it for a builder succeeds and gives the same dialect |
| Metadata.Registered | src/database/src/MetadataManager.ts:4-13 | after registering, model `m` maps property `p` to the type; an unseen model first gets an empty map; no other model or property changes |
| Metadata.KeyText | src/database/src/MetadataManager.ts:29-30 | a string key is kept; a symbol renders as `Symbol(description)` |
| Metadata.MetadataManager.constructor | src/database/src/MetadataManager.ts:2 | the registry starts empty |
| Metadata.MetadataManager.SetColumnMetadata | src/database/src/MetadataManager.ts:4-13 | the new registry is the old one with the registration applied |
| Metadata.MetadataManager.GetColumnMetadata | src/database/src/MetadataManager.ts:15-19 | `undefined` exactly for a model nothing was registered for, and otherwise its map |
| Metadata.MetadataManager.Column | src/database/src/MetadataManager.ts:24-33 | the `@Column` decorator registers the property's key text under the class name |
| Metadata.SetThenGet | src/database/src/MetadataManager.ts:4-19 | after registering, reading the model's metadata gives back the type at that property, and every other model reads as before |
| Models.PutPut | src/database/src/Model.ts:69-71 | writing a key twice keeps only the second value, in the key's first place, so the loop's two writes collapse into one |
| Models.AssignLookup | src/database/src/Model.ts:67-74 | after `assign(data)` every key of `data` holds the value chosen for it, and every other attribute reads as before |
| Models.AssignMassAssignment | src/database/src/Model.ts:67-74 | as written, a fillable, unguarded key receives its own value; any other key of `data` receives `data["id"]` |
| Models.IntendedAssignLookup | src/database/src/Model.ts:67-74 | with the intended assignment, exactly the fillable, unguarded keys change, each to its own value; every other attribute is unchanged |
| Models.GuardedKeyTakesId | src/database/src/Model.ts:69 | assigning `{id: 1, role: "admin"}` with `role` guarded stores `role = 1` as written, and leaves `role` unset under the intended assignment |
| Models.HideLookup | src/database/src/Model.ts:77-83 | after hiding, the hidden fields are absent and every other field reads as before |
| Models.SetThenGet | src/database/src/Model.ts:249-255 | `setAttribute(k, v)` followed by `getAttribute(k)` gives `v`; other keys read as before |
| Models.UpdatePayload | src/database/src/Model.ts:103-104 | the update payload has no `id`, and every other attribute keeps its value |
| Models.Model.constructor | src/database/src/Model.ts:16-25 | a model starts with the given fillable, hidden and guarded lists and no attributes |
| Models.Model.Assign | src/database/src/Model.ts:67-74 | the loop over `data`'s keys leaves the attributes as the key-by-key assignment of the old ones, and the lists unchanged |
| Models.Model.ToJson | src/database/src/Model.ts:77-83 | returns the attributes with every hidden field deleted, leaving the attributes themselves unchanged |
| Models.Model.GetAttribute | src/database/src/Model.ts:249-251 | a set key gives the value of its first (in this model its only) entry, an unset one `undefined` |
| Models.Model.SetAttribute | src/database/src/Model.ts:253-255 | the attribute is written in place, or appended when new |
| Models.Model.Update | src/database/src/Model.ts:99-113 | assigns `data`, then hands the query builder the attributes without `id` as the payload and `attributes.id` as the where value |
| Models.FullConfig | src/database/src/Model.ts:55 | the configuration handed to the factory has `type` set to the configured database type |
| Models.PostgresUnreachable | src/database/src/Model.ts:43-56 | as written, no type that `isValidDatabaseType` admits gets a PostgreSQL adapter: `pg` passes the check and the factory then refuses it |
| Models.SupportedTypesReachEveryAdapter | src/database/src/Model.ts:263-265 | with the check the factory supports, every admitted type gets an adapter, and every adapter is reached by its own type name |
| MigrationLedger.Names | src/console/src/commands/MigrateCommand.ts:67-72 | the executed migrations are the ledger's migration names, one per row, in order |
| MigrationLedger.MaxBatch | src/console/src/commands/MigrateCommand.ts:74-80 | `MAX(batch)` is SQL NULL exactly for an empty table, and otherwise a batch some row has and no row exceeds |
| MigrationLedger.InBatch | src/console/src/commands/MigrateRollbackCommand.ts:49-53 | the rows selected for a batch are exactly the ledger's rows of that batch |
| MigrationLedger.FilterUnique | src/console/src/commands/MigrateResetCommand.ts:104-108 | deleting rows keeps the others in order, so a ledger that named each migration once still does |
| MigrationLedger.RemoveRecord | src/console/src/commands/MigrateRollbackCommand.ts:55-59 | `DELETE … WHERE migration = ?` keeps exactly the rows of other migrations |
| MigrationLedger.Record | src/console/src/commands/MigrateCommand.ts:82-92 | the upsert appends a row for a new migration, and for a known one gives its row the new batch in place, keeping the ledger's length |
| MigrationLedger.RecordUnique | src/console/src/commands/MigrateCommand.ts:86-90 | recording keeps at most one row per migration |
| MigrationLedger.MigrationTable.constructor | src/console/src/commands/MigrateCommand.ts:68-76 | the `migrations` table starts with the given rows |
| MigrateCommand.MigrationFiles | src/console/src/commands/MigrateCommand.ts:61-65 | exactly the listed files ending in `.ts` or `.js`, and no file twice when the listing has none twice |
| MigrateCommand.CurrentBatch | src/console/src/commands/MigrateCommand.ts:74-80 | `maxBatch ? maxBatch : 0`: 0 on an empty ledger, otherwise the highest batch some row has |
| MigrateCommand.Applied | src/console/src/commands/MigrateCommand.ts:39-58 | the files whose `up()` ran and completed are listed files, not yet executed, loadable and succeeding |
| MigrateCommand.RunShape | src/console/src/commands/MigrateCommand.ts:39-58 | with distinct files the loop only appends: one row for each applied file in order, all in the same batch |
| MigrateCommand.MigrateAppends | src/console/src/commands/MigrateCommand.ts:21-59 | `migrate` on distinct files appends one row per applied file in batch `current + 1`, and leaves every earlier row as it was |
| MigrateCommand.AppliedStops | src/console/src/commands/MigrateCommand.ts:54-57 | a file whose `up()` throws ends the run: nothing listed after it is applied |
| MigrateCommand.AppliedComplete | src/console/src/commands/MigrateCommand.ts:39-58 | when no runnable `up()` throws, every loadable file not yet executed is applied |
| MigrateCommand.AppliedAgain | src/console/src/commands/MigrateCommand.ts:40-42 | files already executed contribute nothing when the run is replayed |
| MigrateCommand.MigrateIdempotent | src/console/src/commands/MigrateCommand.ts:21-59 | a second `migrate` with the same files and classes leaves the ledger as the first left it |
| MigrateCommand.NothingNew | src/console/src/commands/MigrateCommand.ts:39-42 | when every file is already in the ledger, `migrate` records nothing |
| MigrateCommand.RunUnique | src/console/src/commands/MigrateCommand.ts:52 | the ledger keeps one row per migration through the whole run |
| MigrateCommand.Handle | src/console/src/commands/MigrateCommand.ts:21-59 | the loop over the migration files leaves the ledger as the specification of a run says; an empty listing leaves it unchanged |
| MigrateRollbackCommand.LastBatchMigrations | src/console/src/commands/MigrateRollbackCommand.ts:49-53 | exactly the migrations of rows in the highest batch |
| MigrateRollbackCommand.FirstLoadable | src/console/src/commands/MigrateRollbackCommand.ts:29-33 | none exactly when no candidate's class loads; otherwise a candidate whose class loads |
| MigrateRollbackCommand.RemoveAtMostOne | src/console/src/commands/MigrateRollbackCommand.ts:55-59 | in a ledger naming each migration once, deleting by name removes at most one row |
| MigrateRollbackCommand.RollbackAtMostOne | src/console/src/commands/MigrateRollbackCommand.ts:29-46 | because of `process.exit(0)` after the first success, at most one row goes, and only a row of the highest batch whose `down()` completed |
| MigrateRollbackCommand.Handle | src/console/src/commands/MigrateRollbackCommand.ts:16-47 | the loop over the last batch leaves the ledger as the rollback specification says |
| MigrateResetCommand.LastBatchNumber | src/console/src/commands/MigrateResetCommand.ts:49-54 | `maxBatch \|\| null`: null exactly for an empty ledger or a highest batch of 0, and the highest batch otherwise |
| MigrateResetCommand.LoadableMembers | src/console/src/commands/MigrateResetCommand.ts:63-65 | the migrations whose `down()` is called are exactly those among the batch whose class loads |
| MigrateResetCommand.RollbackEachFilters | src/console/src/commands/MigrateResetCommand.ts:42-44 | rolling back a list of migrations deletes exactly the rows of listed migrations whose `down()` completes |
| MigrateResetCommand.BatchNamesUnique | src/console/src/commands/MigrateResetCommand.ts:56-61 | in a ledger naming each migration once, a migration is selected for batch `b` exactly when its row is in batch `b` |
| MigrateResetCommand.BatchStep | src/console/src/commands/MigrateResetCommand.ts:41-44 | one batch deletes exactly its own rows whose `down()` completes |
| MigrateResetCommand.ResetFromKeeps | src/console/src/commands/MigrateResetCommand.ts:40-45 | after batches `b` down to 1, the ledger holds exactly the rows outside those batches and the rows whose rollback failed or whose class did not load, in their order |
| MigrateResetCommand.ResetKeepsFailures | src/console/src/commands/MigrateResetCommand.ts:32-47 | `migrate:reset` leaves exactly the rows whose `down()` failed or could not be loaded, and the rows with a batch below 1 |
| MigrateResetCommand.ResetEmpties | src/console/src/commands/MigrateResetCommand.ts:32-47 | when every row has a batch of at least 1 and every `down()` completes, the ledger ends empty |
| MigrateResetCommand.BatchOrderFiltered | src/console/src/commands/MigrateResetCommand.ts:40-45 | deleting rows of lower batches does not change what a higher batch reads, so the order of `down()` calls can be read off the starting ledger |
| MigrateResetCommand.ResetCallsOrder | src/console/src/commands/MigrateResetCommand.ts:40-45 | the `down()` calls go batch by batch from the highest, each batch in table order, without reversing a batch |
| MigrateResetCommand.RollbackMigration | src/console/src/commands/MigrateResetCommand.ts:63-81 | an unloadable class is skipped; the row is deleted only when `down()` completes; it answers whether `down()` was called |
| MigrateResetCommand.RollbackBatch | src/console/src/commands/MigrateResetCommand.ts:41-44 | the inner loop leaves the ledger as rolling back the batch's migrations says, and calls `down()` of exactly the loadable ones, in order |
| MigrateResetCommand.RollbackAll | src/console/src/commands/MigrateResetCommand.ts:32-47 | the batch loop leaves the ledger as the reset specification says and makes the `down()` calls in the specified order |
| MigrateResetCommand.Handle | src/console/src/commands/MigrateResetCommand.ts:21-30 | `handle()` is `rollbackAll()` on the connected ledger |
| MigrateRefreshCommand.RefreshFromScratch | src/console/src/commands/MigrateRefreshCommand.ts:17-31 | when every row has a batch of at least 1 and every `down()` completes, the ledger is emptied and then holds exactly the files `migrate` applies, in batch 1 |
| MigrateRefreshCommand.RefreshKeepsFailures | src/console/src/commands/MigrateRefreshCommand.ts:24-29 | migrations whose rollback failed stay recorded, so the following `migrate` does not run them again; the others are run anew |
| MigrateRefreshCommand.Handle | src/console/src/commands/MigrateRefreshCommand.ts:17-47 | the ledger ends as the reset followed by `migrate`, with the rollback's `down()` calls in the reset order |
| MigrateStatusCommand.Executed | src/console/src/commands/MigrateStatusCommand.ts:46-56 | the map's keys are exactly the ledger's migration names |
| MigrateStatusCommand.ExecutedLastRow | src/console/src/commands/MigrateStatusCommand.ts:52-55 | a migration maps to the batch of its last row: a later row for the same migration overwrites an earlier one |
| MigrateStatusCommand.ExecutedBatch | src/console/src/commands/MigrateStatusCommand.ts:52-55 | in a ledger naming each migration once, every row's migration maps to its own batch |
| MigrateStatusCommand.BatchNo | src/console/src/commands/MigrateStatusCommand.ts:63 | `executed[file] \|\| 0`: the recorded batch, or 0 for a file never applied |
| MigrateStatusCommand.MigrationStatus | src/console/src/commands/MigrateStatusCommand.ts:58-72 | one row per file, numbered from 1 in listing order, and "Pending" exactly when its batch reads 0 |
| MigrateStatusCommand.StatusAgainstLedger | src/console/src/commands/MigrateStatusCommand.ts:23-29 | a listed file shows "Pending" exactly when the ledger has no row for it with a non-zero batch, and otherwise shows that row's batch |
| MigrateStatusCommand.WithBatch | src/console/src/commands/MigrateStatusCommand.ts:32 | the rows of one batch, in their order |
| MigrateStatusCommand.Insert | src/console/src/commands/MigrateStatusCommand.ts:32 | one insertion step of the stable sort adds exactly the one row |
| MigrateStatusCommand.SortByBatch | src/console/src/commands/MigrateStatusCommand.ts:32 | the sort holds the same rows, as a multiset |
| MigrateStatusCommand.InsertSorted | src/console/src/commands/MigrateStatusCommand.ts:32 | inserting into rows sorted from the highest batch down keeps them sorted |
| MigrateStatusCommand.InsertWithBatch | src/console/src/commands/MigrateStatusCommand.ts:32 | inserting puts the row in front of the rows of its own batch |
| MigrateStatusCommand.SortByBatchCorrect | src/console/src/commands/MigrateStatusCommand.ts:32 | the sorted rows run from the highest batch down, are a permutation of the input, and keep the listing order among rows of one batch |
| MigrateStatusCommand.BatchCell | src/console/src/commands/MigrateStatusCommand.ts:85 | the "Batch No" cell is "-" exactly for batch 0, and otherwise the number |
| MigrateStatusCommand.Cells | src/console/src/commands/MigrateStatusCommand.ts:82-89 | one printed line holds the number, the batch cell ("-" exactly for batch 0, otherwise the batch number), the file name and the status |
| MigrateStatusCommand.ReportShape | src/console/src/commands/MigrateStatusCommand.ts:15-34 | every file of the filtered listing shows once, numbered by its place in that listing, and the report runs from the highest batch down |
| MakeMigrationCommand.PadNumber | src/console/src/commands/MakeMigrationCommand.ts:77-79 | below 100, `padStart(2, "0")` gives the two-digit form of the number |
| MakeMigrationCommand.LastTwo | src/console/src/commands/MakeMigrationCommand.ts:67 | `slice(-2)` keeps the last two characters, or the whole text when it is shorter |
| MakeMigrationCommand.PadFieldsAgree | src/console/src/commands/MakeMigrationCommand.ts:65-75 | within the clock's ranges, these fields are padded the same way as the fields of `get_timestamp.ts` |
| MakeMigrationCommand.TimestampIsTwelveDigits | src/console/src/commands/MakeMigrationCommand.ts:65-75 | for a year of at least two digits, the stamp is twelve digits: the last twelve characters of the full timestamp |
| MakeMigrationCommand.FormatMigrationName | src/console/src/commands/MakeMigrationCommand.ts:81-97 | the result has no space and no capital letter and starts with a known verb; a snake-cased name that starts with one is kept, any other is wrapped as `create_<name>_table` |
| MakeMigrationCommand.FormatIdempotent | src/console/src/commands/MakeMigrationCommand.ts:27 | formatting a formatted name changes nothing, so `handle` formatting the name a second time is harmless |
| MakeMigrationCommand.LastNonWordBefore | src/console/src/commands/MakeMigrationCommand.ts:106 | the last position before `k` that is not in `[a-z0-9]`, or -1 when there is none |
| MakeMigrationCommand.TableWord | src/console/src/commands/MakeMigrationCommand.ts:106-107 | a captured word is a non-empty `[a-z0-9]+` run, and the name ends with `_`, that word and `_table` |
| MakeMigrationCommand.TableWordMatches | src/console/src/commands/MakeMigrationCommand.ts:106-107 | for a name ending in `_<word>_table`, the regular expression captures exactly that word |
| MakeMigrationCommand.TableName | src/console/src/commands/MakeMigrationCommand.ts:99-114 | the plural of the captured word when the expression matches, and the plural of the whole snake-cased name otherwise |
| MakeMigrationCommand.TableOfBareWord | src/console/src/commands/MakeMigrationCommand.ts:81-114 | `make:migration user` makes `create_user_table`, and the table is the plural of the word, `users` |
| MakeMigrationCommand.PluralTableTwice | src/console/src/commands/MakeMigrationCommand.ts:106-108 | a name that carries its table in the plural gets a second plural ending: `create_users_table` gives the table `userses` |
| MakeMigrationCommand.MigrationName | src/console/src/commands/MakeMigrationCommand.ts:48-63 | none exactly for a non-object, an empty array, or an object with no positionals; otherwise the first argument, formatted |
| MakeMigrationCommand.Handle | src/console/src/commands/MakeMigrationCommand.ts:12-38 | fails with "Migration name is required." without a name, and with the file-exists error when the file is present; otherwise the new `.ts` file is not among the existing ones |
| MakeMigrationCommand.HandleNamesFile | src/console/src/commands/MakeMigrationCommand.ts:26-36 | the file is named after the stamp and the first positional formatted once, and the table is taken from that name |
| Str.Trim | src/support/Str.ts:42 | the result is a piece of the input with only whitespace cut off on either side, it has no leading or trailing whitespace, and single spacing and the `[a-z0-9 ]` alphabet survive it |
| Str.ReplaceSpaceRuns | src/support/Str.ts:12 | every run of whitespace becomes one separator, so no whitespace remains when the separator has none |
| Str.SplitCamel | src/support/Str.ts:13 | inserting the separator between a lower-case and an upper-case letter adds no whitespace |
| Str.SnakeCase | src/support/Str.ts:18-23 | no whitespace and no capital letter remain |
| Str.KebabCase | src/support/Str.ts:10-15 | no whitespace and no capital letter remain |
| Str.CaseWithFixed | src/support/Str.ts:10-23 | text with no whitespace and no capitals is already in snake and kebab case |
| Str.SnakeCaseIdempotent | src/support/Str.ts:18-23 | snake-casing twice is snake-casing once |
| Str.KebabCaseIdempotent | src/support/Str.ts:10-15 | kebab-casing twice is kebab-casing once |
| Str.Ucfirst | src/support/Str.ts:47-50 | only the first character can change, to its upper-case form; the length is kept |
| Str.Lcfirst | src/support/Str.ts:52-55 | only the first character can change, to its lower-case form; the length is kept |
| Str.CamelJoin | src/support/Str.ts:5 | the result is no longer than the input, and text with no `-` or `_` is unchanged |
| Str.CamelJoinWords | src/support/Str.ts:5 | words joined by `-` or `_` lose the separators, and each word after a separator starts with its first character in capitals |
| Str.CamelCase | src/support/Str.ts:3-7 | the result is no longer than the input and does not start with a capital letter; text with no separator is just lower-cased at its first character |
| Str.PascalJoin | src/support/Str.ts:28 | the result is no longer than the input and holds no `-`, `_` or whitespace |
| Str.PascalJoinWords | src/support/Str.ts:28 | words after runs of `-`, `_` or whitespace lose the runs and start with their first character in capitals; a trailing run vanishes |
| Str.PascalCase | src/support/Str.ts:26-30 | no separator or whitespace remains and the first character is not a lower-case letter |
| Str.Limit | src/support/Str.ts:33-35 | a string within the limit is unchanged; a longer one is cut to its first `limit` characters and the ending is appended |
| Str.NonAlnumToSpace | src/support/Str.ts:41 | the result is single-spaced over `[a-z0-9 ]`, starts with a space only when the input starts outside `[a-z0-9]`, and keeps the input's `[a-z0-9]` characters in order |
| Str.SlugShape | src/support/Str.ts:38-44 | with a one-character separator outside `[a-z0-9]`, a slug is made of `[a-z0-9]` and the separator, neither starts nor ends with the separator, and never repeats it |
| Str.Squish | src/support/Str.ts:67-70 | the result is trimmed and single-spaced, and its characters other than whitespace are the input's, in order |
| Str.VisibleTrim | src/support/Str.ts:69 | trimming removes whitespace only |
| Str.VisibleSpaceRuns | src/support/Str.ts:69 | turning whitespace runs into single spaces removes whitespace only |
| Str.SquishIdempotent | src/support/Str.ts:67-70 | squishing twice is squishing once |
| Str.ReplaceFirst | src/support/Str.ts:72-81 | unchanged when the search text does not occur; otherwise its first occurrence is replaced and the rest is kept |
| Str.ReplaceLast | src/support/Str.ts:83-92 | unchanged when the search text does not occur; otherwise its last occurrence is replaced |
| Str.ReplaceFirstBySelf | src/support/Str.ts:72-81 | replacing the first occurrence by itself changes nothing |
| Str.ReplaceLastBySelf | src/support/Str.ts:83-92 | replacing the last occurrence by itself changes nothing |
| Str.Reverse | src/support/Str.ts:94-97 | the characters in the opposite order, with the same length |
| Str.ReverseInvolution | src/support/Str.ts:94-97 | reversing twice gives the text back |
| Str.Plural | src/support/Str.ts:109-117 | the plural ends in `s`: a final `y` becomes `ies`, a final `s`, `sh` or `ch` gets `es`, anything else gets `s` |
| Str.Singular | src/support/Str.ts:120-131 | `ies` becomes `y`, a final `es` is dropped, a single final `s` is dropped, anything else is kept |
| Str.SingularOfPlural | src/support/Str.ts:109-131 | `singular` undoes `plural` for every word that does not end in `e` |
| Str.ContainsAny | src/support/Str.ts:139-141 | true exactly when some search text occurs |
| Str.ContainsAll | src/support/Str.ts:144-146 | true exactly when every search text occurs, so an empty list holds |
| Str.AffixesOccur | src/support/Str.ts:57-64 | `startsWith` and `endsWith` are occurrences at either end, so each implies `contains` (lines 134-136); the empty search is found everywhere |
| Str.PadLeft | src/support/Str.ts:149-153 | a long enough string is unchanged; otherwise (length minus the value's length) copies of the pad stand in front of the value, character i of that prefix being the pad's character i mod the pad's length, so a one-character pad reaches the length exactly with that character |
| Str.PadRight | src/support/Str.ts:156-160 | a long enough string is unchanged; otherwise (length minus the value's length) copies of the pad follow the value, character i after it being the pad's character i mod the pad's length, so a one-character pad reaches the length exactly with that character |
| Str.Split | src/support/Str.ts:166 | `split(c)` gives at least one piece and no piece holds `c` |
| Str.Title | src/support/Str.ts:163-169 | `title` is the lower-cased text with each character capitalised that starts the text or follows a space |
| Str.TitleChars | src/support/Str.ts:163-169 | the reference reading of `title`: a character is capitalised exactly when it starts the text or follows a space, and the length is kept |
| Str.TitleSplit | src/support/Str.ts:166-168 | splitting on spaces, capitalising the pieces and joining them back agrees with the reference reading |
| Functions.Pluralize | src/support/Helpers/functions.ts:1-15 | the plural ends in `s`; a `y` after a consonant becomes `ies`, a `y` after a vowel gets `s`; `s`, `sh`, `ch`, `x`, `z` get `es` |
| Functions.PluralizeAgreesWithPlural | src/support/Helpers/functions.ts:1-15 | `pluralize` and `Str.plural` agree except for a vowel before a final `y` and a final `x` or `z` |
| Functions.PluralizeDiffers | src/support/Helpers/functions.ts:2-11 | where they differ: `pluralize` gives "boys" and "boxes", `Str.plural` "boies" and "boxs" |
| Helpers.BaseUrl | src/support/helpers.ts:62-64 | `APP_URL` when it is set and non-empty, and `http://localhost:8000` otherwise |
| Helpers.StripTrailingSlashes | src/support/helpers.ts:74 | the result does not end in `/`, and the input is the result followed by slashes only |
| Helpers.StripLeadingSlashes | src/support/helpers.ts:75 | the result does not start with `/`, and the input is slashes only followed by the result |
| Helpers.Asset | src/support/helpers.ts:73-77 | the link is the base URL without its trailing slashes, one `/`, and the path without its leading slashes |
| Helpers.AssetIgnoresLeadingSlash | src/support/helpers.ts:75 | leading slashes on the path make no difference to the link |
| Helpers.AssetIgnoresTrailingSlash | src/support/helpers.ts:74 | an extra trailing slash on the base URL makes no difference to the link |
| GetTimestamp.TwoDigits | src/console/src/get_timestamp.ts:8-12 | `("0" + n).slice(-2)` is two digits, and below 100 it is the number's tens and units |
| GetTimestamp.TwoDigitsRoundTrip | src/console/src/get_timestamp.ts:8-12 | below 100 the two digits read back as the number |
| GetTimestamp.Fields | src/console/src/get_timestamp.ts:8-12 | month (counted from 1), day, hour, minute and second: ten digits |
| GetTimestamp.Timestamp | src/console/src/get_timestamp.ts:6-12 | the full unpadded year followed by ten digits |
| GetTimestamp.DecodeParts | src/console/src/get_timestamp.ts:6-12 | each component of the date is read from its own slice of the timestamp |
| GetTimestamp.TimestampRoundTrip | src/console/src/get_timestamp.ts:6-12 | every component of the date can be read back from the timestamp, given the year's length |
| GetTimestamp.GenerateTimestampedFilename | src/console/src/get_timestamp.ts:1-15 | `<prefix>_<timestamp>.<extension>`, with `file` and `txt` as defaults |
| Config.Walk | src/config/src/ConfigRepository.ts:66-69 | once a step gives `undefined` the rest of the walk stays `undefined`; an empty path gives the start; a step from `null` throws |
| Config.WalkAppend | src/config/src/ConfigRepository.ts:66-69 | walking a path in two pieces is walking it whole |
| Config.Get | src/config/src/ConfigRepository.ts:60-71 | a falsy file entry gives the default; a one-segment key gives the file's tree; otherwise the value the walk finds, or the default when the walk ends in `undefined`; below a truthy entry it throws exactly when the walk throws, as a step from `null` does |
| Config.GetMissingStep | src/config/src/ConfigRepository.ts:66-70 | once any step of the walk gives `undefined`, `get` answers the default |
| Config.GetCleared | src/config/src/ConfigRepository.ts:193-195 | after `clearCache`, every `get` answers its default |
| Config.Has | src/config/src/ConfigRepository.ts:117-119 | throws exactly when `get` throws; true exactly when `get(key)` with the default `null` finds something other than `null` |
| Config.ObjectAt | src/config/src/ConfigRepository.ts:150-153 | throws exactly when `get` throws; the value when it is an object or array, and otherwise the default |
| Config.ArrayAt | src/config/src/ConfigRepository.ts:178-181 | throws exactly when `get` throws; the value when it is an array, and otherwise the default |
| Config.StringAt | src/config/src/ConfigRepository.ts:78-81 | succeeds exactly when `get` succeeds with a value other than `null` and `undefined`, and then gives its `toString()` |
| Config.BooleanAt | src/config/src/ConfigRepository.ts:108-111 | throws exactly when `get` throws; otherwise the truthiness of the value, and the default's truthiness for a falsy file entry |
| Config.MapAt | src/config/src/ConfigRepository.ts:160-171 | throws exactly when `get` throws; an object gives its entries, an array the entries ("0", first element), ("1", second element), … in order, anything else the default's entries |
| Config.Start | src/config/src/ConfigRepository.ts:128-130 | a falsy node is replaced by a fresh object, and a truthy one is kept |
| Config.Assign | src/config/src/ConfigRepository.ts:132-139 | writing at a path below a node that is not an object does nothing; a write that took place leaves an object |
| Config.AssignPath | src/config/src/ConfigRepository.ts:132-139 | the loop of `set`, walking down all segments but the last and creating missing or falsy nodes, gives the tree and outcome of the recursive write |
| Config.SetPath | src/config/src/ConfigRepository.ts:127-139 | the path `set` writes is never empty; a key without a dot writes the property `"undefined"`, since `parts[parts.length - 1]` of an empty list is `undefined` |
| Config.SetCoherent | src/config/src/ConfigRepository.ts:126-143 | `set` keeps the cache sharing its trees with `configs` |
| Config.AssignThenWalk | src/config/src/ConfigRepository.ts:132-139 | a write that took place can be read back along the same path |
| Config.AssignFresh | src/config/src/ConfigRepository.ts:128-139 | below a file with no tree, or a falsy one, `set` builds the path from fresh objects and always succeeds |
| Config.SetThenGet | src/config/src/ConfigRepository.ts:60-143 | `set(key, value)` followed by `get(key)` answers `value` for a key of at least two segments and a value other than `undefined`, whenever the `set` returned normally |
| Config.SetFreshFile | src/config/src/ConfigRepository.ts:128-139 | `set` on a file with no tree, or a falsy one, returns normally |
| Config.SetSingleSegment | src/config/src/ConfigRepository.ts:139 | a key without a dot writes the property `"undefined"` of the file's tree |
| Config.AssignKeepsOthers | src/config/src/ConfigRepository.ts:132-139 | where the path exists, a walk that leaves the written path reads the same before and after the write |
| Config.SetKeepsOtherFiles | src/config/src/ConfigRepository.ts:126-143 | `set` leaves every other file, in `configs` and in the cache, as it was |
| Config.SetKeepsOtherKeys | src/config/src/ConfigRepository.ts:126-143 | within the written file, where the written path already existed, every key that leaves that path reads as it did |
| Config.ConfigName | src/config/src/ConfigRepository.ts:35 | the name without its `.ts` or `.js` extension; a file named just `.ts` or `.js` keeps its name |
| Config.Overlay | src/config/src/ConfigRepository.ts:33-45 | every name the old configurations had is still present after the listing's files are stored |
| Config.OverlayLast | src/config/src/ConfigRepository.ts:33-45 | a listed file ends up under its name with its value, unless a later file of the same name replaced it |
| Config.ConfigRepository.constructor | src/config/src/ConfigRepository.ts:14-16 | no configurations and an empty cache |
| Config.ConfigRepository.Load | src/config/src/ConfigRepository.ts:21-53 | a non-empty cache skips loading; otherwise every config file of the listing is stored under its name and the cache becomes a copy of the configurations |
| Config.ConfigRepository.Reload | src/config/src/ConfigRepository.ts:186-188 | exactly what `load` does |
| Config.ConfigRepository.Set | src/config/src/ConfigRepository.ts:126-143 | the configurations and cache become those of the `set` specification, and the call throws exactly when that write did not take place |
| Config.ConfigRepository.ClearCache | src/config/src/ConfigRepository.ts:193-195 | the cache is emptied and the configurations keep everything |
| ConfigurationService.ConfigurationService.constructor | src/config/src/ConfigurationService.ts:9-11 | no configurations and an empty cache |
| ConfigurationService.ConfigurationService.LoadConfigs | src/config/src/ConfigurationService.ts:14-43 | a non-empty cache skips loading; otherwise every config file of the listing is stored under its name and the cache becomes a copy of the configurations |
| ConfigurationService.ConfigurationService.Reload | src/config/src/ConfigurationService.ts:133-136 | exactly what `loadConfigs` does |
| ConfigurationService.ConfigurationService.Set | src/config/src/ConfigurationService.ts:88-105 | the configurations and cache become those of the `set` specification, and the call throws exactly when that write did not take place |
| Command.SetOption | src/console/src/command.ts:39-42 | an existing option keeps its place and gets the new metadata; a new option goes last |
| Command.SetOptionOf | src/console/src/command.ts:39-42 | `option()` sets or overwrites the metadata of its own option and leaves the others alone |
| Command.AliasName | src/console/src/command.ts:164-171 | none exactly when no option has the alias; otherwise the first declared option that has it |
| Command.SplitAssignment | src/console/src/command.ts:125 | `split("=")` destructured: the name is the text before the first `=`, and the value the text between the first and the second `=` |
| Command.Shorts | src/console/src/command.ts:136-146 | reading the letters of a `-abc` argument never moves back, and stays within the arguments |
| Command.Step | src/console/src/command.ts:119-150 | one turn consumes the argument it starts at and possibly later ones, staying within the arguments |
| Command.StepPositional | src/console/src/command.ts:147-150 | a turn adds a positional exactly for an argument that does not start with `-` |
| Command.LongAssignment | src/console/src/command.ts:124-126 | `--name=value` stores the text between the first and the second `=` under the name, and consumes nothing more |
| Command.LongFlag | src/console/src/command.ts:127-132 | `--flag` is `true`, unless the next argument exists and does not start with `-`; that argument is then the value and is consumed |
| Command.ShortUnknown | src/console/src/command.ts:137-139 | a letter that is no option's alias changes nothing |
| Command.ShortOne | src/console/src/command.ts:139-145 | a single resolved letter sets its option to `true` or to the next argument, and consumes at most that argument |
| Command.PositionalsInOrder | src/console/src/command.ts:113-156 | the positionals a parse adds are the arguments that do not start with `-`, in command-line order |
| Command.PlainArguments | src/console/src/command.ts:113-156 | with no argument starting with `-`, every argument is a positional, in order, and there are no options |
| Command.StepAdvances | src/console/src/command.ts:118-153 | each turn moves past the argument it started at and stays within the arguments, so the loop ends |
| Command.OptionLine | src/console/src/command.ts:91-94 | an option's help line starts with `--` and its name |
| Command.Help | src/console/src/command.ts:89-105 | the help text starts with the command's signature and description; it shows the joined aliases, or "Aliases: None" without any; it holds every option's line, or "No options available." without options |
| Command.Command.constructor | src/console/src/command.ts:25-29 | the command keeps its signature, description and aliases, with no options |
| Command.Command.Option | src/console/src/command.ts:39-42 | the new options are the old ones with this option set |
| Command.Command.ParseArgs | src/console/src/command.ts:113-156 | the `while` loop gives the positionals and options of the recursive specification of the parse |
| Command.Command.Turn | src/console/src/command.ts:119-150 | one turn of the loop, up to the final `i++`, is one step of the specification |
| Command.Command.ShortOptions | src/console/src/command.ts:137-146 | the loop over the letters of a short-option argument is the letter-by-letter specification |
| CliFormatter.Sgr | src/console/src/cli_formatter.ts:11-26 | every code `colorize` uses is a non-empty escape sequence starting with ESC |
| CliFormatter.ColorCode | src/console/src/cli_formatter.ts:10-20 | a known colour name gives an escape sequence; any other name none |
| CliFormatter.StylePrefix | src/console/src/cli_formatter.ts:29 | no style or an empty one gives nothing, a known style its code, and an unknown style the text "undefined" |
| CliFormatter.Colorize | src/console/src/cli_formatter.ts:9-31 | the result starts with the style part, ends with the text and the reset code, and an unknown colour contributes nothing |
| CliFormatter.IntendedStylePrefix | src/console/src/cli_formatter.ts:22-29 | a known style gives its code and anything else nothing |
| CliFormatter.ColorizeIntended | src/console/src/cli_formatter.ts:9-31 | an unknown style is treated like no style; with no style or a known one the result is the one `colorize` gives |
| CliFormatter.UnknownStyleLeaks | src/console/src/cli_formatter.ts:29-30 | with the style "blink" the output starts with "undefined", where the intended one is the red code, the text and the reset |
| CliFormatter.Header | src/console/src/cli_formatter.ts:37-39 | the printed header is a newline, the bold and magenta codes and the text, ending with the text and the reset code |
| CliFormatter.ErrorLine | src/console/src/cli_formatter.ts:45-47 | the printed error is the bold red "Error: " label, a reset, then the message unchanged |
| CliFormatter.Code | src/console/src/cli_formatter.ts:64-70 | with colours on, a code is its escape sequence; with colours off, empty |
| CliFormatter.FormatValue | src/console/src/cli_formatter.ts:89-96 | booleans green or red, numbers yellow, each followed by a reset; other values as their text; without colours every value is its plain text |
| CliFormatter.FullKey | src/console/src/cli_formatter.ts:75 | at the top the key itself; below a parent the parent, `-> `, then the key |
| CliFormatter.LeafLine | src/console/src/cli_formatter.ts:99 | the line starts with the full key and ends with a space and the shown value; a short key is padded to exactly `space` characters, a long one is kept whole |
| CliFormatter.EntryLines | src/console/src/cli_formatter.ts:72-101 | one pushed element per entry, in entry order |
| CliFormatter.FormatIsFlat | src/console/src/cli_formatter.ts:58-104 | the nested output equals the flat list of leaf lines, each under its full key path, joined by newlines |
| CliFormatter.LinesUnderParent | src/console/src/cli_formatter.ts:75-86 | below a parent key, every output line is empty (an empty nested object) or starts with the parent key and `-> ` |
| Cli.IndexOfKey | src/console/src/cli.ts:9-10 | a found position holds the key, and there is none exactly when no entry has the key |
| Cli.MapGet | src/console/src/cli.ts:45-46 | `Map.get` finds nothing exactly when no entry has the key |
| Cli.MapSet | src/console/src/cli.ts:26 | `Map.set` keeps an existing key in place and appends a new one |
| Cli.GetAfterSet | src/console/src/cli.ts:26 | after `set`, the key reads as the new value, every other key as before, and keys stay distinct |
| Cli.LaterAliasWins | src/console/src/cli.ts:23-29 | an alias declared by several commands maps to the last one loaded; an alias no command declares keeps its old target |
| Cli.GroupOf | src/console/src/cli.ts:117 | the group is the part of the signature before its first colon, and contains no colon |
| Cli.AddToGroup | src/console/src/cli.ts:119-122 | the command is appended to its group, a missing group is created, and every other group is unchanged |
| Cli.InGroup | src/console/src/cli.ts:113-126 | the commands listed for a group all belong to that group |
| Cli.GroupsHoldTheirCommands | src/console/src/cli.ts:113-126 | each group holds exactly its own commands, in load order, and a group exists exactly when one of its commands was loaded |
| Cli.GroupsDistinct | src/console/src/cli.ts:113-126 | no group name occurs twice in the grouping |
| Cli.GroupCommands | src/console/src/cli.ts:113-126 | the loop over the commands builds exactly that grouping |
| Cli.CommandLine | src/console/src/cli.ts:99-105 | a command line is two spaces, then the signature in cyan, then ` : ` and the description |
| Cli.CommandLines | src/console/src/cli.ts:98-106 | one line per command of the group, in order |
| Cli.GroupLines | src/console/src/cli.ts:93-107 | the title in bold yellow after a newline, then one line per command |
| Cli.OtherGroupsMembers | src/console/src/cli.ts:80-85 | the groups shown after "general" are exactly those not named "general" |
| Cli.ShownGroups | src/console/src/cli.ts:70-86 | "general" comes first, titled "General", when it exists; the other groups follow in insertion order |
| Cli.Listing | src/console/src/cli.ts:70-86 | the listing starts with the "Available Commands" header |
| Cli.EveryCommandShown | src/console/src/cli.ts:70-107 | every loaded command appears in the listing, under its own group |
| Cli.Resolve | src/console/src/cli.ts:45 | a name with no alias is kept, and an alias with a non-empty target resolves to that target |
| Cli.FindCommand | src/console/src/cli.ts:46 | the command found has the requested signature, and none is found exactly when no command has it |
| Cli.Dispatch | src/console/src/cli.ts:39-61 | no argument, "list" or "help" lists the commands; otherwise a found command runs on the remaining arguments, and an unknown name is reported |
| Cli.AliasRunsCommand | src/console/src/cli.ts:23-50 | an alias runs the last command that declared it, with the remaining arguments |
| Cli.SignatureRunsCommand | src/console/src/cli.ts:44-50 | a name that is no alias runs the command with that signature, with the remaining arguments |
| Cli.Cli.constructor | src/console/src/cli.ts:9-10 | no commands and no aliases |
| Cli.Cli.RegisterAliases | src/console/src/cli.ts:23-29 | the commands are unchanged and the aliases become the registration specification applied to the old aliases |
| Cli.Cli.Run | src/console/src/cli.ts:35-65 | the loaded commands, one per signature as the loader's `Map` keeps them, are stored, their aliases registered, and the outcome is the dispatch of the arguments |
| Cli.Cli.ListCommands | src/console/src/cli.ts:70-86 | the printed lines are the listing specification for the stored commands |
| Cli.ShowOthers | src/console/src/cli.ts:81-85 | the loop over the groups appends exactly the lines of the groups other than "general" |
| Application.EmptyValid | src/core/src/Application.ts:13-17 | the empty container keeps the one-run-per-key invariant |
| Application.RegisterEvents | src/core/src/Application.ts:33-37 | one `register` call per provider, in argument order |
| Application.BootEvents | src/core/src/Application.ts:46-48 | one `boot` call per provider, in registration order |
| Application.Registered | src/core/src/Application.ts:29-38 | the providers are appended and each asked to register, in order; the boot flag and the services are unchanged |
| Application.Booted | src/core/src/Application.ts:43-50 | afterwards the container is booted; a booted container is unchanged; otherwise every registered provider is booted in order |
| Application.BootOnce | src/core/src/Application.ts:43-50 | booting twice is booting once |
| Application.LateProvidersNeverBoot | src/core/src/Application.ts:29-50 | providers registered after the boot are never booted: a later boot adds no boot call |
| Application.WithBinding | src/core/src/Application.ts:55-57 | only the binding of the key is replaced |
| Application.WithSingleton | src/core/src/Application.ts:62-64 | only the singleton factory of the key is replaced |
| Application.Made | src/core/src/Application.ts:69-87 | a cached instance comes first, then the singleton factory, then the binding, each run once and cached; a key with none of them throws "Service key not found" and changes nothing |
| Application.MadeValid | src/core/src/Application.ts:69-87 | `make` keeps each key's factory to at most one run |
| Application.MakeTwice | src/core/src/Application.ts:69-87 | a second `make` of a key returns the same instance and changes nothing, for bindings as well as singletons |
| Application.RebindAfterMake | src/core/src/Application.ts:55-87 | once a key has an instance, `bind` and `singleton` for it do not change what `make` returns |
| Application.SingletonBeforeBinding | src/core/src/Application.ts:74-84 | with both a singleton and a binding for a key, `make` runs the singleton factory |
| Application.BindValid | src/core/src/Application.ts:55-64 | `bind` and `singleton` keep the one-run-per-key invariant |
| Application.Application.constructor | src/core/src/Application.ts:13-17 | an empty container, not booted |
| Application.Application.Register | src/core/src/Application.ts:29-38 | the loop over the provider classes gives the `register` specification |
| Application.Application.Boot | src/core/src/Application.ts:43-50 | the loop over the providers gives the `boot` specification |
| Application.Application.Bind | src/core/src/Application.ts:55-57 | the state becomes the `bind` specification |
| Application.Application.Singleton | src/core/src/Application.ts:62-64 | the state becomes the `singleton` specification |
| Application.Application.Make | src/core/src/Application.ts:69-87 | the result and the new state are those of the `make` specification |
| Application.Global.constructor | src/core/src/Application.ts:12 | no application yet |
| Application.Global.GetInstance | src/core/src/Application.ts:19-24 | the first call creates an empty application and keeps it; every later call returns that same one |
| Router.Chain | src/http/src/RouterService.ts:66-72 | the chain is the global middleware, then the route's own, then the request logger outside production |
| Router.ControllerRoutesExactly | src/http/src/RouterService.ts:161-182 | each allowed action gets its route, and every registered route belongs to an allowed action |
| Router.ControllerPaths | src/http/src/RouterService.ts:168-180 | every resource route is at the resource path followed by the action's suffix, with the given chain |
| Router.FullResource | src/http/src/RouterService.ts:143-159 | with every action a function and no options, the five routes index, store, show, update and destroy are registered |
| Router.HandleResponse | src/http/src/RouterService.ts:21-51 | a `Response` passes through; only `null` and `undefined` give 204 with no body; strings give text, objects JSON, anything else 500 |
| Router.LetterRun | src/http/src/RouterService.ts:140 | the run of letters after a colon is maximal: letters up to it and a non-letter (or the end) after it |
| Router.SubstituteNoParams | src/http/src/RouterService.ts:140 | a path without a parameter is left unchanged |
| Router.Url | src/http/src/RouterService.ts:134-141 | a name with no or an empty path gives undefined, and a path without parameters is returned as it is |
| Router.GroupRoutesShape | src/http/src/RouterService.ts:184-203 | as written, the group's k-th route is the callback's k-th request with its own path, verb and handler, the group's middleware first in its chain |
| Router.GroupDropsPrefix | src/http/src/RouterService.ts:194-199 | a group with prefix "/api" whose callback adds `GET /users` mounts `/users` |
| Router.IntendedGroupRoutes | src/http/src/RouterService.ts:184-203 | as intended, every path of the group gets the prefix in front, with the same chains |
| Router.IntendedGroupPrefix | src/http/src/RouterService.ts:184-203 | as intended, the same group mounts `/api/users` |
| Router.Prefixed | src/http/src/RouterService.ts:205-210 | `prefix` puts the prefix in front of every route's path and changes nothing else |
| Router.RouterService.constructor | src/http/src/RouterService.ts:15-19 | no routes, no route names and no global middleware |
| Router.RouterService.Use | src/http/src/RouterService.ts:53-58 | the middleware are appended in order and nothing else changes; `middleware(...)` (lines 212-215) is the same call |
| Router.RouterService.AddRoute | src/http/src/RouterService.ts:60-132 | exactly one route is added, with the specified chain, and nothing else changes |
| Router.RouterService.ApiResource | src/http/src/RouterService.ts:143-159 | the routes added are the controller routes of the five-entry resource table |
| Router.RouterService.AddControllerRoutes | src/http/src/RouterService.ts:161-182 | the loop over the table adds exactly the controller routes of the specification |
| Router.RouterService.Prefix | src/http/src/RouterService.ts:205-210 | every route registered so far gets the prefix, and nothing else changes |
| Router.RouterService.GetUrl | src/http/src/RouterService.ts:134-141 | always undefined, because no route name is ever recorded |
| Router.RouterService.Group | src/http/src/RouterService.ts:184-203 | exactly one group router is mounted under "*", holding the routes of the as-written group; nothing else changes |

## Left out

- Drivers and I/O: the SQL drivers (mysql2, pg, bun:sqlite), the file system (`readdir`, stub files), dynamic `import()`, `process.exit`, the console and the logger are not modelled. A driver's answer is a `Result` parameter of each terminal call, a directory listing is a `seq` parameter, and the printed text is returned as strings.
- Concurrency: asynchronous calls and `Promise.all` are modelled in sequence. A race between two config files of the same base name (`a.ts` and `a.js`) is not modelled.
- `Str.random`: it depends on `Math.random`.
- `Str.startsWith`, `Str.endsWith`, `Str.contains`: these are the string predicates of the `Text` module. `Str.AffixesOccur` relates them.
- Unicode: `Str` and the naming helpers work on ASCII letters only, so there is no Unicode case mapping.
- The path helpers `basePath`, `appPath`, `configPath`, `databasePath`, `storagePath`, `logPath`, `resourcePath`, `testPath`: they join the process's working directory, which is not modelled.
- Config `integer` and `float` (both config classes): these are floating-point conversions (`parseInt`, `parseFloat`).
- Config aliasing: the cache and the configuration objects share nested objects. The model keeps two values, related by the `Coherent` invariant. It also leaves out:
  - writes into an array at any key other than an index the array already holds: a new index, or a name such as `name` in `set("f.list.name", v)` with `list` an array. JavaScript writes these as properties of the array object and `set` returns normally; `Config.Assign` answers `false` and `set` answers `Err`.
- JavaScript objects: every object in the model is a `Js.Props`, an insertion-ordered list of key/value pairs. That covers configuration trees, the builders' row and data objects, `Model` attributes, `Command` options and the entries `CliFormatter` walks. Prototype properties such as `toString` are not modelled, and neither is the ordering JavaScript gives integer-like keys, which come first in ascending order whatever the insertion order.
- `ConfigurationService`: its readers `get`, `string`, `boolean`, `has`, `object`, `map` and `array` are the same code as `ConfigRepository`'s. The `Config` functions model both, with the caller passing the default, which is `0` for `ConfigurationService.string`.
- Model: the static query methods (`select`, `create`, `where…`, `get`, `all`, `find`, `first`, `last`, the relations, the static `getColumnMetadata`) run through the lazily created query-builder singleton, which is not modelled. `initializeQueryBuilder` is modelled only in how it builds the connection configuration (`Models.FullConfig`).
- `DatabaseFactory`: which module each branch loads is not modelled. Only the choice of adapter and builder is.
- The legacy `src/database/src/MySQLAdapter.ts` and `src/database/src/SQLiteAdapter.ts` are not part of this model: they wrap the drivers behind a null check.
- `InstallMigrationCommand`'s fixed DDL is not modelled. Its `UNIQUE` migration column is the ledger's `Valid` invariant.
- Migrations: a migration file is abstracted to its outcome (it loads, or `up`/`down` succeeds or throws).
- `migrate:refresh` repeats the rollback code of `migrate:reset` line for line. The model runs the reset loop for it, rather than a second copy.
- `migrate:status`: the engine's `Array.prototype.sort` is modelled as a stable insertion sort on a value. It is not an in-place array.
- `make:migration`: reading the stub and writing the file are left out. The file name and the table name are modelled.
- `CommandLoader` and each command's `handle` are not modelled. The error paths "Error executing command" and "Initialization failed" are not modelled either, because they only print. The dispatcher's outcome says which command runs, with which arguments.
- `Command` getters (`getSignature`, `getDescription`, `getAliases`, `getOptions`): these are the class's fields. The abstract `handle` and `run` are left out.
- `Cli.Listing`: the `?? ["general"]` fallback of `groupCommands` never applies, because `split` always returns at least one element. The model leaves it out.
- `Cli`: the generic `Map` is an insertion-ordered sequence of pairs.
- `Application`: the providers' own `register`/`boot` bodies, and the factories' closures, are opaque names. `start()` is server start-up and is left out.
- `Router`: Hono's own routing is not modelled, including mounting a group under `"*"` and `fetch`. A route is the record of what was handed to Hono. `APP_ENV` is a constructor parameter. `c.json` throwing on a circular value (the 500 path of the `catch`) is not modelled, because the model's values cannot be circular.
- `Router.RouterService.GetUrl`: no route name is ever recorded, so it is always undefined. `Router.Url` states what `url` does for a given name map.
- `Router.RouterService.Group`: the callback is modelled as the list of routes it registers; a callback that calls `use`, `middleware`, `apiResource` or a nested `group` on the group router is not represented.

## Findings

Each row pairs a member that keeps the code as written, with a lemma showing the discrepancy, and a corrected definition with the intended property proved. The classes of the model keep the behaviour as written, since that is what the program does.

| source | as written | input that shows it | evidently intended | confidence | as-written member | corrected member |
|---|---|---|---|---|---|---|
| src/database/src/query-builder/MySQLQueryBuilder.ts.ts:169-188 | `update` and `delete` overwrite the query with `UPDATE t SET …` or `DELETE FROM t`. They drop the WHERE text that `where` collected, but still pass its parameters. The older MySQL builder (src/database/src/MySQLQueryBuilder.ts.ts:157-179) does the same, and so does `delete` in the PostgreSQL (144-148) and SQLite (123-127) builders. Their `update` (PostgreSQL 134-142, SQLite 113-121) instead replaces the parameters with the data's values, so the where values are lost along with the WHERE text. | `table("users").where("id", "=", 1).delete()` sends `DELETE FROM users` with parameters `[1]`, which deletes every row | the statement ends with the collected WHERE text, so every parameter has its placeholder | high (not executed) | QueryText.UpdateDropsWhere / QueryText.DeleteDropsWhere | QueryText.UpdateWhereBalanced / QueryText.DeleteWhereBalanced |
| src/database/src/query-builder/MySQLQueryBuilder.ts.ts:147-155 | a batch insert writes one placeholder `?i` per row | `insert([{a: 1, b: 2}, {a: 3, b: 4}])` gives `VALUES (?1, ?2)` for four parameters | one `(?, …, ?)` group per row, with a mark per value | high (not executed) | MySqlBuilder.BatchMarksPerRow | MySqlBuilder.GroupedInsertBalanced |
| src/database/src/Model.ts:263-265 | `isValidDatabaseType` admits `"pg"`, but the factory only knows `"postgresql"` (src/database/src/DatabaseFactory.ts:18) | `database.default = "pg"` fails with `Unsupported database type: pg`, and `"postgresql"` is refused by the model | the model admits exactly the types the factory supports | high (not executed) | Models.PostgresUnreachable | Models.SupportedTypesReachEveryAdapter |
| src/database/src/Model.ts:67-72 | `assign` first writes `data["id"]` into every key of the data, and only then overwrites the fillable, unguarded ones | `assign({id: 1, role: "admin"})` with `role` guarded sets `role` to `1` | keys that are not fillable, or are guarded, are left untouched | high (not executed) | Models.AssignMassAssignment / Models.GuardedKeyTakesId | Models.IntendedAssignLookup |
| src/console/src/cli_formatter.ts:29-30 | an unknown style reads `styles[style]` as `undefined`, and the template prints it | `colorize("x", "red", "blink")` starts with the text `undefined` | an unknown style contributes nothing, as an unknown colour does | high (not executed) | CliFormatter.UnknownStyleLeaks | CliFormatter.ColorizeIntended |
| src/http/src/RouterService.ts:194-199 | `group` applies `prefix` before the callback has added any route, so the prefix reaches no route | `group({prefix: "/api"}, r => r.get("/users", h))` mounts `/users` | every route of the group is under the prefix | medium (not executed) | Router.GroupDropsPrefix | Router.IntendedGroupRoutes / Router.IntendedGroupPrefix |
| src/database/src/adapter/PostgreSQLAdapter.ts:23-29 | `connect` stores the new client before `client.connect()`, and its failure handler does not clear it | a `connect` whose open is refused throws, but a second `connect` only warns and returns normally, and later queries pass `ensureConnected` and go to a client that never connected | a refused open leaves no client, so a retry connects afresh | medium (not executed) | PostgresAdapter.RefusedOpenKeepsClient | PostgresAdapter.IntendedConnectHonest |
