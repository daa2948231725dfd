/** The table blueprint: fluent calls accumulate column, index and foreign-key records,
    which are rendered to one `CREATE TABLE` or `ALTER TABLE … ADD …` statement.

    The records and their rendering are values (`Records`, `TableSql`); the builder the
    migrations mutate is the class `Blueprint`, whose every method is specified by `Step`. */
module Blueprints {
  import opened Wrappers
  import opened Text
  import Js

  datatype Column = Column(
    name: string,
    sqlType: string,
    length: Option<int>,
    autoIncrement: bool,
    primary: bool,
    nullable: bool,
    defaultValue: Js.Value,   // `Undefined` when no default was given
    unsigned: bool)

  datatype IndexKind = Primary | Unique | Plain

  datatype IndexDef = IndexDef(kind: IndexKind, columns: seq<string>)

  datatype ForeignKey = ForeignKey(
    column: string,
    references: string,
    on: string,
    onDelete: Option<string>,
    onUpdate: Option<string>)

  datatype Records = Records(
    tableName: string,
    isAlter: bool,
    columns: seq<Column>,
    indexes: seq<IndexDef>,
    foreignKeys: seq<ForeignKey>)

  /** The argument of `primary`/`unique`/`index`: one column name or an array of them. */
  datatype ColumnsArg = One(name: string) | Many(names: seq<string>)

  /** One fluent call on a blueprint. A foreign-key modifier names the foreign key it acts
      on by its position, which is how the builder returned by `foreign` reaches the record
      it already pushed. */
  datatype Call =
    | Increments(name: string)
    | Integer(name: string)
    | BigInteger(name: string)
    | StringCol(name: string, length: int := 255)
    | TextCol(name: string)
    | BooleanCol(name: string)
    | DateCol(name: string)
    | DateTimeCol(name: string)
    | TimestampCol(name: string, defaultValue: Js.Value := Js.Undefined)
    | Timestamps
    | PrimaryIdx(cols: ColumnsArg)
    | UniqueIdx(cols: ColumnsArg)
    | PlainIdx(cols: ColumnsArg)
    | Foreign(column: string)
    | References(fk: nat, column: string)
    | On(fk: nat, table: string)
    | OnDelete(fk: nat, action: string)
    | OnUpdate(fk: nat, action: string)
    | Nullable
    | Default(value: Js.Value)

  function Fresh(tableName: string, isAlter: bool): Records {
    Records(tableName, isAlter, [], [], [])
  }

  function BareColumn(name: string, sqlType: string): Column {
    Column(name, sqlType, None, false, false, false, Js.Undefined, false)
  }

  function ColumnsOf(arg: ColumnsArg): seq<string> {
    match arg
    case One(n) => [n]
    case Many(ns) => ns
  }

  function UnfinishedForeignKey(column: string): ForeignKey {
    ForeignKey(column, "", "", None, None)
  }

  function SetLast(cols: seq<Column>, c: Column): seq<Column>
    requires |cols| > 0
  {
    cols[|cols| - 1 := c]
  }

  function UpdateForeignKey(d: Records, k: nat, fk: ForeignKey): Records
    requires k < |d.foreignKeys|
  {
    d.(foreignKeys := d.foreignKeys[k := fk])
  }

  /** The effect of one fluent call on the records. A foreign-key modifier whose position
      names no record changes nothing. */
  function Step(d: Records, call: Call): Records
  {
    match call
    case Increments(n) => d.(columns := d.columns + [BareColumn(n, "INTEGER").(autoIncrement := true, primary := true)])
    case Integer(n) => d.(columns := d.columns + [BareColumn(n, "INTEGER")])
    case BigInteger(n) => d.(columns := d.columns + [BareColumn(n, "BIGINT")])
    case StringCol(n, len) => d.(columns := d.columns + [BareColumn(n, "VARCHAR").(length := Some(len))])
    case TextCol(n) => d.(columns := d.columns + [BareColumn(n, "TEXT")])
    case BooleanCol(n) => d.(columns := d.columns + [BareColumn(n, "BOOLEAN")])
    case DateCol(n) => d.(columns := d.columns + [BareColumn(n, "DATE")])
    case DateTimeCol(n) => d.(columns := d.columns + [BareColumn(n, "DATETIME")])
    case TimestampCol(n, v) => d.(columns := d.columns + [BareColumn(n, "TIMESTAMP").(defaultValue := v)])
    case Timestamps =>
      d.(columns := d.columns + [BareColumn("created_at", "TIMESTAMP"), BareColumn("updated_at", "TIMESTAMP")])
    case PrimaryIdx(arg) => d.(indexes := d.indexes + [IndexDef(Primary, ColumnsOf(arg))])
    case UniqueIdx(arg) => d.(indexes := d.indexes + [IndexDef(Unique, ColumnsOf(arg))])
    case PlainIdx(arg) => d.(indexes := d.indexes + [IndexDef(Plain, ColumnsOf(arg))])
    case Foreign(c) => d.(foreignKeys := d.foreignKeys + [UnfinishedForeignKey(c)])
    case References(k, c) =>
      if k < |d.foreignKeys| then UpdateForeignKey(d, k, d.foreignKeys[k].(references := c)) else d
    case On(k, t) =>
      if k < |d.foreignKeys| then UpdateForeignKey(d, k, d.foreignKeys[k].(on := t)) else d
    case OnDelete(k, a) =>
      if k < |d.foreignKeys| then UpdateForeignKey(d, k, d.foreignKeys[k].(onDelete := Some(a))) else d
    case OnUpdate(k, a) =>
      if k < |d.foreignKeys| then UpdateForeignKey(d, k, d.foreignKeys[k].(onUpdate := Some(a))) else d
    case Nullable =>
      if |d.columns| > 0 then d.(columns := SetLast(d.columns, d.columns[|d.columns| - 1].(nullable := true))) else d
    case Default(v) =>
      if |d.columns| > 0 then d.(columns := SetLast(d.columns, d.columns[|d.columns| - 1].(defaultValue := v))) else d
  }

  /** The records after a sequence of fluent calls, applied in order. */
  function Replay(d: Records, calls: seq<Call>): Records
  {
    if calls == [] then d else Step(Replay(d, calls[..|calls| - 1]), calls[|calls| - 1])
  }

  // ---------------------------------------------------------------- rendering

  function IsFlag(c: Option<int>): bool {
    c.Some? && c.value != 0
  }

  /** The words of a column definition, in their fixed order. */
  function ColumnParts(c: Column): seq<string>
  {
    [c.name + " " + c.sqlType] + LengthWord(c) + FlagWords(c) + DefaultWord(c)
  }

  /** `(len)` when the length is truthy. */
  function LengthWord(c: Column): seq<string> {
    if IsFlag(c.length) then ["(" + IntToString(c.length.value) + ")"] else []
  }

  /** UNSIGNED, AUTO_INCREMENT, PRIMARY KEY when set, then NULL or NOT NULL. */
  function FlagWords(c: Column): seq<string> {
    (if c.unsigned then ["UNSIGNED"] else [])
    + (if c.autoIncrement then ["AUTO_INCREMENT"] else [])
    + (if c.primary then ["PRIMARY KEY"] else [])
    + [if c.nullable then "NULL" else "NOT NULL"]
  }

  /** `DEFAULT '<v>'` unless the default is `undefined`. */
  function DefaultWord(c: Column): seq<string> {
    if !c.defaultValue.Undefined? then ["DEFAULT '" + Js.ToText(c.defaultValue) + "'"] else []
  }

  function ColumnSql(c: Column): string {
    Join(ColumnParts(c), " ")
  }

  function KindText(k: IndexKind): string {
    match k
    case Primary => "PRIMARY"
    case Unique => "UNIQUE"
    case Plain => "INDEX"
  }

  function IndexSql(idx: IndexDef): string {
    (if idx.kind == Primary then "PRIMARY KEY" else KindText(idx.kind) + " INDEX")
    + " (" + Join(idx.columns, ", ") + ")"
  }

  function ActionClause(word: string, action: Option<string>): string {
    if action.Some? && action.value != "" then " " + word + " " + action.value else ""
  }

  function ForeignKeySql(fk: ForeignKey): string {
    "FOREIGN KEY (" + fk.column + ") REFERENCES " + fk.on + "(" + fk.references + ")"
    + ActionClause("ON DELETE", fk.onDelete)
    + ActionClause("ON UPDATE", fk.onUpdate)
  }

  function ColumnSqls(cols: seq<Column>): (r: seq<string>)
    ensures |r| == |cols|
    ensures forall i :: 0 <= i < |cols| ==> r[i] == ColumnSql(cols[i])
  {
    if cols == [] then [] else [ColumnSql(cols[0])] + ColumnSqls(cols[1..])
  }

  function IndexSqls(idxs: seq<IndexDef>): (r: seq<string>)
    ensures |r| == |idxs|
    ensures forall i :: 0 <= i < |idxs| ==> r[i] == IndexSql(idxs[i])
  {
    if idxs == [] then [] else [IndexSql(idxs[0])] + IndexSqls(idxs[1..])
  }

  function ForeignKeySqls(fks: seq<ForeignKey>): (r: seq<string>)
    ensures |r| == |fks|
    ensures forall i :: 0 <= i < |fks| ==> r[i] == ForeignKeySql(fks[i])
  {
    if fks == [] then [] else [ForeignKeySql(fks[0])] + ForeignKeySqls(fks[1..])
  }

  /** Every clause prefixed with `ADD `. */
  function Prefixed(clauses: seq<string>): (r: seq<string>)
    ensures |r| == |clauses|
    ensures forall i :: 0 <= i < |clauses| ==> r[i] == "ADD " + clauses[i]
  {
    if clauses == [] then [] else ["ADD " + clauses[0]] + Prefixed(clauses[1..])
  }

  function CreateSql(d: Records): string {
    var cols := Join(ColumnSqls(d.columns), ", ");
    var idxs := Join(IndexSqls(d.indexes), ", ");
    var fks := Join(ForeignKeySqls(d.foreignKeys), ", ");
    "CREATE TABLE " + d.tableName + " ("
    + (cols + (if idxs != "" then ", " + idxs else "") + (if fks != "" then ", " + fks else ""))
    + ")"
  }

  function AlterSql(d: Records): string {
    var cols := Join(Prefixed(ColumnSqls(d.columns)), ", ");
    var idxs := Join(Prefixed(IndexSqls(d.indexes)), ", ");
    var fks := Join(Prefixed(ForeignKeySqls(d.foreignKeys)), ", ");
    "ALTER TABLE " + d.tableName + " " + Join(NonEmpty([cols, idxs, fks]), ", ")
  }

  /** `toSQL()`. */
  function TableSql(d: Records): string {
    if d.isAlter then AlterSql(d) else CreateSql(d)
  }

  // ---------------------------------------------------------------- properties of the records

  /** `nullable()` and `default(v)` change only the last column, and nothing when there is none. */
  lemma ModifierTouchesLastColumnOnly(d: Records, call: Call)
    requires call.Nullable? || call.Default?
    ensures var r := Step(d, call);
      && r.tableName == d.tableName && r.isAlter == d.isAlter
      && r.indexes == d.indexes && r.foreignKeys == d.foreignKeys
      && |r.columns| == |d.columns|
      && (forall i :: 0 <= i < |d.columns| - 1 ==> r.columns[i] == d.columns[i])
      && (d.columns == [] ==> r == d)
      && (d.columns != [] ==>
            var last, was := r.columns[|d.columns| - 1], d.columns[|d.columns| - 1];
            last.name == was.name && last.sqlType == was.sqlType && last.length == was.length
            && last.autoIncrement == was.autoIncrement && last.primary == was.primary
            && (if call.Nullable? then last.nullable && last.defaultValue == was.defaultValue
                else last.defaultValue == call.value && last.nullable == was.nullable))
  {
  }

  /** A column call appends its columns after the existing ones and touches nothing else. */
  lemma ColumnCallAppends(d: Records, call: Call)
    requires call.Increments? || call.Integer? || call.BigInteger? || call.StringCol? || call.TextCol?
          || call.BooleanCol? || call.DateCol? || call.DateTimeCol? || call.TimestampCol? || call.Timestamps?
    ensures var r := Step(d, call);
      && r.indexes == d.indexes && r.foreignKeys == d.foreignKeys
      && |r.columns| == |d.columns| + (if call.Timestamps? then 2 else 1)
      && r.columns[..|d.columns|] == d.columns
      && (forall i :: |d.columns| <= i < |r.columns| ==> !r.columns[i].nullable && !r.columns[i].unsigned)
  {
  }

  /** `increments(n)` is an INTEGER primary key with AUTO_INCREMENT set. */
  lemma IncrementsColumn(d: Records, name: string)
    ensures var cols := Step(d, Increments(name)).columns;
      var c := cols[|cols| - 1];
      c.name == name && c.sqlType == "INTEGER" && c.autoIncrement && c.primary && !c.nullable
  {
  }

  /** `string(n)` without a length is a VARCHAR of length 255. */
  lemma StringDefaultLength(d: Records, name: string)
    ensures var cols := Step(d, StringCol(name)).columns;
      cols[|cols| - 1].sqlType == "VARCHAR" && cols[|cols| - 1].length == Some(255)
  {
  }

  /** `timestamps()` appends `created_at` then `updated_at`, both TIMESTAMP without a default. */
  lemma TimestampsColumns(d: Records)
    ensures var cols := Step(d, Timestamps).columns;
      var n := |d.columns|;
      |cols| == n + 2
      && cols[n].name == "created_at" && cols[n + 1].name == "updated_at"
      && cols[n].sqlType == "TIMESTAMP" && cols[n + 1].sqlType == "TIMESTAMP"
      && cols[n].defaultValue.Undefined? && cols[n + 1].defaultValue.Undefined?
  {
  }

  /** `primary`/`unique`/`index` append exactly one index; a single name becomes a one-element list. */
  lemma IndexCallAppendsOne(d: Records, call: Call)
    requires call.PrimaryIdx? || call.UniqueIdx? || call.PlainIdx?
    ensures var r := Step(d, call);
      && r.columns == d.columns && r.foreignKeys == d.foreignKeys
      && |r.indexes| == |d.indexes| + 1 && r.indexes[..|d.indexes|] == d.indexes
      && r.indexes[|d.indexes|].kind == (if call.PrimaryIdx? then Primary else if call.UniqueIdx? then Unique else Plain)
      && r.indexes[|d.indexes|].columns == (if call.cols.One? then [call.cols.name] else call.cols.names)
  {
  }

  lemma ReplaySnoc(d: Records, calls: seq<Call>, call: Call)
    ensures Replay(d, calls + [call]) == Step(Replay(d, calls), call)
  {
    assert (calls + [call])[..|calls|] == calls;
  }

  lemma StepForeignKeyCalls(d: Records, c: string, x: string)
    ensures Step(d, Foreign(c)).foreignKeys == d.foreignKeys + [UnfinishedForeignKey(c)]
    ensures |d.foreignKeys| > 0 ==> var k := |d.foreignKeys| - 1; var fk := d.foreignKeys[k];
      && Step(d, References(k, x)).foreignKeys == d.foreignKeys[k := fk.(references := x)]
      && Step(d, On(k, x)).foreignKeys == d.foreignKeys[k := fk.(on := x)]
      && Step(d, OnDelete(k, x)).foreignKeys == d.foreignKeys[k := fk.(onDelete := Some(x))]
      && Step(d, OnUpdate(k, x)).foreignKeys == d.foreignKeys[k := fk.(onUpdate := Some(x))]
  {
    if |d.foreignKeys| > 0 {
      var k := |d.foreignKeys| - 1;
      var fk := d.foreignKeys[k];
      assert Step(d, References(k, x)) == UpdateForeignKey(d, k, fk.(references := x));
      assert Step(d, On(k, x)) == UpdateForeignKey(d, k, fk.(on := x));
      assert Step(d, OnDelete(k, x)) == UpdateForeignKey(d, k, fk.(onDelete := Some(x)));
      assert Step(d, OnUpdate(k, x)) == UpdateForeignKey(d, k, fk.(onUpdate := Some(x)));
    }
  }

  /** The record `foreign(c)` stores is the one its builder's later calls edit. */
  lemma ForeignBuilderEditsStoredRecord(d: Records, c: string, refs: string, table: string, del: string)
    ensures var k := |d.foreignKeys|;
      Step(Step(Step(Step(d, Foreign(c)), References(k, refs)), On(k, table)), OnDelete(k, del)).foreignKeys
        == d.foreignKeys + [ForeignKey(c, refs, table, Some(del), None)]
  {
    var k := |d.foreignKeys|;
    var r1 := Step(d, Foreign(c));
    StepForeignKeyCalls(d, c, refs);
    assert r1.foreignKeys == d.foreignKeys + [UnfinishedForeignKey(c)];
    var r2 := Step(r1, References(k, refs));
    StepForeignKeyCalls(r1, c, refs);
    assert r2.foreignKeys == d.foreignKeys + [ForeignKey(c, refs, "", None, None)];
    var r3 := Step(r2, On(k, table));
    StepForeignKeyCalls(r2, c, table);
    assert r3.foreignKeys == d.foreignKeys + [ForeignKey(c, refs, table, None, None)];
    StepForeignKeyCalls(r3, c, del);
  }

  /** A foreign key whose builder was never finished refers to nothing. */
  lemma UnfinishedForeignKeySql(c: string)
    ensures ForeignKeySql(UnfinishedForeignKey(c)) == "FOREIGN KEY (" + c + ") REFERENCES ()"
  {
  }

  lemma StepKeepsSigned(d: Records, call: Call)
    requires forall c :: c in d.columns ==> !c.unsigned
    ensures forall c :: c in Step(d, call).columns ==> !c.unsigned
  {
  }

  /** No fluent call can set `unsigned`, so UNSIGNED is never rendered for a built table. */
  lemma {:induction false} BuiltColumnsNeverUnsigned(tableName: string, isAlter: bool, calls: seq<Call>)
    ensures forall c :: c in Replay(Fresh(tableName, isAlter), calls).columns ==>
      !c.unsigned && "UNSIGNED" !in ColumnParts(c)[1..]
  {
    if calls != [] {
      BuiltColumnsNeverUnsigned(tableName, isAlter, calls[..|calls| - 1]);
      StepKeepsSigned(Replay(Fresh(tableName, isAlter), calls[..|calls| - 1]), calls[|calls| - 1]);
    }
    forall c | c in Replay(Fresh(tableName, isAlter), calls).columns
      ensures "UNSIGNED" !in ColumnParts(c)[1..]
    {
      ColumnFlagsShown(c);
    }
  }

  /** No fluent call changes the table name or the statement form. */
  lemma {:induction false} ReplayKeepsHeader(d: Records, calls: seq<Call>)
    ensures Replay(d, calls).tableName == d.tableName && Replay(d, calls).isAlter == d.isAlter
  {
    if calls != [] {
      ReplayKeepsHeader(d, calls[..|calls| - 1]);
    }
  }

  // ---------------------------------------------------------------- properties of the rendering

  /** The keywords differ from one another by their first character or their length. */
  lemma KeywordShapes()
    ensures "UNSIGNED"[0] == 'U' && "AUTO_INCREMENT"[0] == 'A' && "PRIMARY KEY"[0] == 'P'
    ensures "NULL"[0] == 'N' && "NOT NULL"[0] == 'N' && |"NULL"| == 4 && |"NOT NULL"| == 8
  {
  }

  /** No keyword of `FlagWords` can be mistaken for the length or the default word. */
  lemma OtherWordsAreNotKeywords(c: Column)
    ensures forall w :: w in LengthWord(c) + DefaultWord(c) ==>
      w != "UNSIGNED" && w != "AUTO_INCREMENT" && w != "PRIMARY KEY" && w != "NULL" && w != "NOT NULL"
  {
    KeywordShapes();
    forall w | w in LengthWord(c) + DefaultWord(c) ensures w[0] == '(' || w[0] == 'D' {
      if w in LengthWord(c) {
        assert w == "(" + IntToString(c.length.value) + ")";
      } else {
        assert w == "DEFAULT '" + Js.ToText(c.defaultValue) + "'";
      }
    }
  }

  lemma FlagWordsShown(c: Column)
    ensures var ws := FlagWords(c);
      && ("UNSIGNED" in ws <==> c.unsigned)
      && ("AUTO_INCREMENT" in ws <==> c.autoIncrement)
      && ("PRIMARY KEY" in ws <==> c.primary)
      && ("NULL" in ws <==> c.nullable)
      && ("NOT NULL" in ws <==> !c.nullable)
  {
    KeywordShapes();
    var u := if c.unsigned then ["UNSIGNED"] else [];
    var a := if c.autoIncrement then ["AUTO_INCREMENT"] else [];
    var p := if c.primary then ["PRIMARY KEY"] else [];
    var n := [if c.nullable then "NULL" else "NOT NULL"];
    assert FlagWords(c) == u + a + p + n;
    assert forall w :: w in u + a + p + n <==> w in u || w in a || w in p || w in n;
  }

  /** Every keyword of a column definition shows exactly when its flag is set; the first word
      is the name and type, and a truthy length shows as `(len)`. */
  lemma ColumnFlagsShown(c: Column)
    ensures ColumnParts(c)[0] == c.name + " " + c.sqlType
    ensures var rest := ColumnParts(c)[1..];
      && ("UNSIGNED" in rest <==> c.unsigned)
      && ("AUTO_INCREMENT" in rest <==> c.autoIncrement)
      && ("PRIMARY KEY" in rest <==> c.primary)
      && ("NULL" in rest <==> c.nullable)
      && ("NOT NULL" in rest <==> !c.nullable)
      && (IsFlag(c.length) ==> "(" + IntToString(c.length.value) + ")" in rest)
      && (!IsFlag(c.length) ==> forall w :: w in rest ==> w != [] && w[0] != '(')
  {
    var rest := ColumnParts(c)[1..];
    assert rest == LengthWord(c) + FlagWords(c) + DefaultWord(c);
    assert forall w :: w in rest <==> w in LengthWord(c) + DefaultWord(c) || w in FlagWords(c);
    OtherWordsAreNotKeywords(c);
    FlagWordsShown(c);
    LengthShownExactly(c);
  }

  /** A word in parentheses follows the name and type exactly when the length is truthy. */
  lemma LengthShownExactly(c: Column)
    ensures var rest := ColumnParts(c)[1..];
      && (IsFlag(c.length) ==> "(" + IntToString(c.length.value) + ")" in rest)
      && (!IsFlag(c.length) ==> forall w :: w in rest ==> w != [] && w[0] != '(')
  {
    var rest := ColumnParts(c)[1..];
    assert rest == LengthWord(c) + (FlagWords(c) + DefaultWord(c));
    if IsFlag(c.length) {
      assert rest[0] == "(" + IntToString(c.length.value) + ")";
    } else {
      assert rest == FlagWords(c) + DefaultWord(c);
      NoParenthesisedFlags(c);
    }
  }

  /** Only the length word starts with `(`: the keywords and the default word do not. */
  lemma NoParenthesisedFlags(c: Column)
    ensures forall w :: w in FlagWords(c) + DefaultWord(c) ==> w != [] && w[0] != '('
  {
    var u := if c.unsigned then ["UNSIGNED"] else [];
    var a := if c.autoIncrement then ["AUTO_INCREMENT"] else [];
    var p := if c.primary then ["PRIMARY KEY"] else [];
    var n := [if c.nullable then "NULL" else "NOT NULL"];
    assert FlagWords(c) + DefaultWord(c) == u + a + p + n + DefaultWord(c);
    forall w | w in u + a + p + n + DefaultWord(c) ensures w != [] && w[0] != '(' {
      if w in DefaultWord(c) {
        assert w == "DEFAULT '" + Js.ToText(c.defaultValue) + "'";
      } else {
        assert w in u || w in a || w in p || w in n;
      }
    }
  }

  lemma RenderedClausesNonEmpty(d: Records)
    ensures forall k :: 0 <= k < |d.columns| ==> ColumnSqls(d.columns)[k] != ""
    ensures forall k :: 0 <= k < |d.indexes| ==> IndexSqls(d.indexes)[k] != ""
    ensures forall k :: 0 <= k < |d.foreignKeys| ==> ForeignKeySqls(d.foreignKeys)[k] != ""
  {
    forall k | 0 <= k < |d.columns| ensures ColumnSql(d.columns[k]) != "" {
      JoinNonEmpty(ColumnParts(d.columns[k]), " ");
    }
  }

  /** `toSQL()` is the ALTER form exactly for an alter-mode blueprint, the CREATE form otherwise. */
  lemma TableSqlForm(d: Records)
    ensures StartsWith(TableSql(d), "ALTER TABLE ") <==> d.isAlter
    ensures StartsWith(TableSql(d), "CREATE TABLE ") <==> !d.isAlter
  {
    var s := TableSql(d);
    if d.isAlter {
      assert s[..12] == "ALTER TABLE ";
      assert s[0] != "CREATE TABLE "[0];
    } else {
      assert s[..13] == "CREATE TABLE ";
      assert s[0] != "ALTER TABLE "[0];
    }
  }

  /** With at least one column, CREATE lists every column, then every index, then every foreign
      key, all separated by `, `. */
  lemma CreateSqlJoinsClauses(d: Records)
    requires |d.columns| > 0
    ensures CreateSql(d) == "CREATE TABLE " + d.tableName + " ("
      + Join(ColumnSqls(d.columns) + IndexSqls(d.indexes) + ForeignKeySqls(d.foreignKeys), ", ") + ")"
  {
    var c, i, f := ColumnSqls(d.columns), IndexSqls(d.indexes), ForeignKeySqls(d.foreignKeys);
    RenderedClausesNonEmpty(d);
    JoinOptionalTails(c, i, f, ", ");
  }

  lemma PrefixedNonEmpty(clauses: seq<string>)
    ensures forall j :: 0 <= j < |clauses| ==> Prefixed(clauses)[j] != ""
  {
    forall j | 0 <= j < |clauses| ensures Prefixed(clauses)[j] != "" {
      assert Prefixed(clauses)[j] == "ADD " + clauses[j];
    }
  }

  /** ALTER prefixes every column, index and foreign-key clause with `ADD ` and lists them all,
      separated by `, `; empty groups leave no trace. */
  lemma AlterSqlJoinsClauses(d: Records)
    ensures AlterSql(d) == "ALTER TABLE " + d.tableName + " "
      + Join(Prefixed(ColumnSqls(d.columns)) + Prefixed(IndexSqls(d.indexes)) + Prefixed(ForeignKeySqls(d.foreignKeys)), ", ")
  {
    var cs, xs, fs := ColumnSqls(d.columns), IndexSqls(d.indexes), ForeignKeySqls(d.foreignKeys);
    PrefixedNonEmpty(cs);
    PrefixedNonEmpty(xs);
    PrefixedNonEmpty(fs);
    JoinThree(Prefixed(cs), Prefixed(xs), Prefixed(fs), ", ");
  }

  /** A primary index renders as `PRIMARY KEY (…)`; a plain index repeats its keyword. */
  lemma IndexSqlForms(cols: seq<string>)
    ensures IndexSql(IndexDef(Primary, cols)) == "PRIMARY KEY (" + Join(cols, ", ") + ")"
    ensures IndexSql(IndexDef(Unique, cols)) == "UNIQUE INDEX (" + Join(cols, ", ") + ")"
    ensures IndexSql(IndexDef(Plain, cols)) == "INDEX INDEX (" + Join(cols, ", ") + ")"
  {
  }

  /** A CREATE with indexes but no columns opens its list with a separator. */
  lemma CreateWithoutColumns(t: string, idx: IndexDef)
    ensures CreateSql(Records(t, false, [], [idx], [])) == "CREATE TABLE " + t + " (, " + IndexSql(idx) + ")"
  {
    assert IndexSqls([idx]) == [IndexSql(idx)];
    assert IndexSql(idx) != "";
  }

  // ---------------------------------------------------------------- the builder

  class ForeignKeyBuilder {
    const blueprint: Blueprint
    const index: nat

    predicate Valid()
      reads this, blueprint
    {
      index < |blueprint.foreignKeys|
    }

    constructor (blueprint: Blueprint, index: nat)
      requires index < |blueprint.foreignKeys|
      ensures this.blueprint == blueprint && this.index == index && Valid()
    {
      this.blueprint := blueprint;
      this.index := index;
    }

    method References(column: string)
      requires Valid()
      modifies blueprint
      ensures Valid()
      ensures blueprint.State() == Step(old(blueprint.State()), Call.References(index, column))
    {
      blueprint.foreignKeys := blueprint.foreignKeys[index := blueprint.foreignKeys[index].(references := column)];
    }

    method On(table: string)
      requires Valid()
      modifies blueprint
      ensures Valid()
      ensures blueprint.State() == Step(old(blueprint.State()), Call.On(index, table))
    {
      blueprint.foreignKeys := blueprint.foreignKeys[index := blueprint.foreignKeys[index].(on := table)];
    }

    method OnDelete(action: string)
      requires Valid()
      modifies blueprint
      ensures Valid()
      ensures blueprint.State() == Step(old(blueprint.State()), Call.OnDelete(index, action))
    {
      blueprint.foreignKeys := blueprint.foreignKeys[index := blueprint.foreignKeys[index].(onDelete := Some(action))];
    }

    method OnUpdate(action: string)
      requires Valid()
      modifies blueprint
      ensures Valid()
      ensures blueprint.State() == Step(old(blueprint.State()), Call.OnUpdate(index, action))
    {
      blueprint.foreignKeys := blueprint.foreignKeys[index := blueprint.foreignKeys[index].(onUpdate := Some(action))];
    }

    /** `build()`: the record this builder edits. */
    function Build(): ForeignKey
      requires Valid()
      reads this, blueprint
    {
      blueprint.foreignKeys[index]
    }
  }

  class Blueprint {
    const tableName: string
    const isAlter: bool
    var columns: seq<Column>
    var indexes: seq<IndexDef>
    var foreignKeys: seq<ForeignKey>

    function State(): Records
      reads this
    {
      Records(tableName, isAlter, columns, indexes, foreignKeys)
    }

    constructor (tableName: string, isAlter: bool)
      ensures State() == Fresh(tableName, isAlter)
    {
      this.tableName := tableName;
      this.isAlter := isAlter;
      columns := [];
      indexes := [];
      foreignKeys := [];
    }

    method AddColumn(c: Column)
      modifies this
      ensures columns == old(columns) + [c]
      ensures indexes == old(indexes) && foreignKeys == old(foreignKeys)
    {
      columns := columns + [c];
    }

    method Increments(name: string)
      modifies this
      ensures State() == Step(old(State()), Call.Increments(name))
    {
      AddColumn(BareColumn(name, "INTEGER").(autoIncrement := true, primary := true));
    }

    method Integer(name: string)
      modifies this
      ensures State() == Step(old(State()), Call.Integer(name))
    {
      AddColumn(BareColumn(name, "INTEGER"));
    }

    method BigInteger(name: string)
      modifies this
      ensures State() == Step(old(State()), Call.BigInteger(name))
    {
      AddColumn(BareColumn(name, "BIGINT"));
    }

    method StringCol(name: string, length: int := 255)
      modifies this
      ensures State() == Step(old(State()), Call.StringCol(name, length))
    {
      AddColumn(BareColumn(name, "VARCHAR").(length := Some(length)));
    }

    method TextCol(name: string)
      modifies this
      ensures State() == Step(old(State()), Call.TextCol(name))
    {
      AddColumn(BareColumn(name, "TEXT"));
    }

    method BooleanCol(name: string)
      modifies this
      ensures State() == Step(old(State()), Call.BooleanCol(name))
    {
      AddColumn(BareColumn(name, "BOOLEAN"));
    }

    method DateCol(name: string)
      modifies this
      ensures State() == Step(old(State()), Call.DateCol(name))
    {
      AddColumn(BareColumn(name, "DATE"));
    }

    method DateTimeCol(name: string)
      modifies this
      ensures State() == Step(old(State()), Call.DateTimeCol(name))
    {
      AddColumn(BareColumn(name, "DATETIME"));
    }

    method TimestampCol(name: string, defaultValue: Js.Value := Js.Undefined)
      modifies this
      ensures State() == Step(old(State()), Call.TimestampCol(name, defaultValue))
    {
      AddColumn(BareColumn(name, "TIMESTAMP").(defaultValue := defaultValue));
    }

    method Timestamps()
      modifies this
      ensures State() == Step(old(State()), Call.Timestamps)
    {
      TimestampCol("created_at");
      TimestampCol("updated_at");
    }

    method AddIndex(kind: IndexKind, arg: ColumnsArg)
      modifies this
      ensures indexes == old(indexes) + [IndexDef(kind, ColumnsOf(arg))]
      ensures columns == old(columns) && foreignKeys == old(foreignKeys)
    {
      indexes := indexes + [IndexDef(kind, ColumnsOf(arg))];
    }

    method PrimaryIdx(arg: ColumnsArg)
      modifies this
      ensures State() == Step(old(State()), Call.PrimaryIdx(arg))
    {
      AddIndex(Primary, arg);
    }

    method UniqueIdx(arg: ColumnsArg)
      modifies this
      ensures State() == Step(old(State()), Call.UniqueIdx(arg))
    {
      AddIndex(Unique, arg);
    }

    method PlainIdx(arg: ColumnsArg)
      modifies this
      ensures State() == Step(old(State()), Call.PlainIdx(arg))
    {
      AddIndex(Plain, arg);
    }

    /** `foreign(column)`: the record is stored at once; the returned builder edits it there. */
    method Foreign(column: string) returns (b: ForeignKeyBuilder)
      modifies this
      ensures State() == Step(old(State()), Call.Foreign(column))
      ensures fresh(b) && b.blueprint == this && b.index == |old(foreignKeys)| && b.Valid()
      ensures b.Build() == UnfinishedForeignKey(column)
    {
      foreignKeys := foreignKeys + [UnfinishedForeignKey(column)];
      b := new ForeignKeyBuilder(this, |foreignKeys| - 1);
    }

    method Nullable()
      modifies this
      ensures State() == Step(old(State()), Call.Nullable)
    {
      if |columns| > 0 {
        columns := columns[|columns| - 1 := columns[|columns| - 1].(nullable := true)];
      }
    }

    method Default(value: Js.Value)
      modifies this
      ensures State() == Step(old(State()), Call.Default(value))
    {
      if |columns| > 0 {
        columns := columns[|columns| - 1 := columns[|columns| - 1].(defaultValue := value)];
      }
    }

    /** Performs one fluent call; a foreign-key modifier goes through a builder for the
        record it names. */
    method Apply(call: Call)
      modifies this
      ensures State() == Step(old(State()), call)
    {
      match call
      case Increments(n) => Increments(n);
      case Integer(n) => Integer(n);
      case BigInteger(n) => BigInteger(n);
      case StringCol(n, len) => StringCol(n, len);
      case TextCol(n) => TextCol(n);
      case BooleanCol(n) => BooleanCol(n);
      case DateCol(n) => DateCol(n);
      case DateTimeCol(n) => DateTimeCol(n);
      case TimestampCol(n, v) => TimestampCol(n, v);
      case Timestamps => Timestamps();
      case PrimaryIdx(arg) => PrimaryIdx(arg);
      case UniqueIdx(arg) => UniqueIdx(arg);
      case PlainIdx(arg) => PlainIdx(arg);
      case Foreign(c) => var _ := Foreign(c);
      case References(k, c) =>
        if k < |foreignKeys| { var b := new ForeignKeyBuilder(this, k); b.References(c); }
      case On(k, t) =>
        if k < |foreignKeys| { var b := new ForeignKeyBuilder(this, k); b.On(t); }
      case OnDelete(k, a) =>
        if k < |foreignKeys| { var b := new ForeignKeyBuilder(this, k); b.OnDelete(a); }
      case OnUpdate(k, a) =>
        if k < |foreignKeys| { var b := new ForeignKeyBuilder(this, k); b.OnUpdate(a); }
      case Nullable => Nullable();
      case Default(v) => Default(v);
    }

    /** Performs a callback's fluent calls in order. */
    method ApplyAll(calls: seq<Call>)
      modifies this
      ensures State() == Replay(old(State()), calls)
    {
      var i := 0;
      while i < |calls|
        invariant 0 <= i <= |calls|
        invariant State() == Replay(old(State()), calls[..i])
      {
        assert calls[..i + 1][..i] == calls[..i];
        Apply(calls[i]);
        i := i + 1;
      }
      assert calls[..|calls|] == calls;
    }

    /** `toSQL()`. */
    function ToSql(): string
      reads this
    {
      TableSql(State())
    }
  }
}
