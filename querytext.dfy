/** The text the query builders assemble: statement heads, the fragment each fluent call
    appends, the placeholder lists of `insert` and `update`, and the state every builder
    keeps. Placeholders are `?` (MySQL, SQLite) or `$n` (PostgreSQL). */
module QueryText {
  import opened Wrappers
  import opened Text
  import Js
  import opened Sql

  const TableNotSet: string := "Table name not set"

  /** The TypeError `Object.keys(data[0])` throws when `insert` is given an empty array. */
  const NoFirstRow: string := "Cannot convert undefined or null to object"

  /** `!this.tableName` is false: a table was named and the name is not empty. */
  predicate TableSet(t: Option<string>) { t.Some? && t.value != "" }

  /** `${this.tableName}`: a table never named renders as `null`. */
  function TableText(t: Option<string>): string { if t.Some? then t.value else "null" }

  /** An identifier, operator or direction holding no placeholder character of either dialect. */
  predicate NoPlaceholder(s: string) { '?' !in s && '$' !in s }

  predicate NoPlaceholders(ss: seq<string>) { forall i :: 0 <= i < |ss| ==> NoPlaceholder(ss[i]) }

  /** A text an appending call adds: it starts with a space, so it never extends a `$n`. */
  predicate Fragment(f: string) { |f| > 0 && f[0] == ' ' }

  /** Neither dialect finds a placeholder in a text without placeholder characters. */
  lemma Unmarked(s: string)
    requires NoPlaceholder(s)
    ensures QMarks(s) == 0 && DollarNumbers(s) == []
  {
    CountCharAbsent(s, '?');
    DollarNone(s);
  }

  lemma {:induction false} JoinUnmarked(parts: seq<string>, sep: string)
    ensures NoPlaceholders(parts) && NoPlaceholder(sep) ==> NoPlaceholder(Join(parts, sep))
  {
    if |parts| > 1 {
      JoinUnmarked(parts[1..], sep);
    }
  }

  /** A decimal numeral, signed or not, holds no placeholder character. */
  lemma NumberUnmarked(n: int)
    ensures NoPlaceholder(IntToString(n))
  {
    var d := NatToString(if n < 0 then -n else n);
    assert !IsDigit('?') && !IsDigit('$');
    assert '?' !in d && '$' !in d;
  }

  /** What a builder holds: the table, the query text, its parameters and whether a where
      clause was added (`hasWhere` or `whereUsed`), and the calls its adapter received. */
  datatype Builder = Builder(tableName: Option<string>, query: string, params: seq<Js.Value>, hasWhere: bool,
                             log: seq<Call>)

  /** After a terminal call: the call is logged and the table kept; a builder that clears
      empties its query, parameters and where flag once the adapter returned. */
  function Finish(s: Builder, c: Call, answer: Answer, clears: bool): (r: Builder)
    ensures r.log == s.log + [c] && r.tableName == s.tableName
    ensures clears && answer.Ok? ==> r.query == "" && r.params == [] && !r.hasWhere
    ensures !(clears && answer.Ok?) ==> r.query == s.query && r.params == s.params && r.hasWhere == s.hasWhere
  {
    var logged := s.(log := s.log + [c]);
    if clears && answer.Ok? then logged.(query := "", params := [], hasWhere := false) else logged
  }

  /** `result[0] || null`: a row is an object, so the first row when there is one. */
  function FirstRow(rows: seq<Row>): (r: Js.Value)
    ensures r == Js.Null <==> rows == []
    ensures rows != [] ==> r == Js.Obj(rows[0])
  {
    if rows != [] && Js.Truthy(Js.Obj(rows[0])) then Js.Obj(rows[0]) else Js.Null
  }

  /** `first`'s outcome given `get`'s. */
  function FirstOf(rows: Result<seq<Row>>): (r: Result<Js.Value>)
    ensures r.Err? <==> rows.Err?
    ensures rows.Ok? ==> r.value == FirstRow(rows.value)
  {
    if rows.Err? then Err(rows.error) else Ok(FirstRow(rows.value))
  }

  // Statement heads

  function SelectSql(cols: string, t: string): (r: string)
    ensures NoPlaceholder(cols) && NoPlaceholder(t) ==> NoPlaceholder(r)
  {
    "SELECT " + cols + " FROM " + t
  }

  function DistinctSql(cols: string, t: string): (r: string)
    ensures NoPlaceholder(cols) && NoPlaceholder(t) ==> NoPlaceholder(r)
  {
    "SELECT DISTINCT " + cols + " FROM " + t
  }

  function CountSql(column: string, t: string): (r: string)
    ensures NoPlaceholder(column) && NoPlaceholder(t) ==> NoPlaceholder(r)
  {
    "SELECT COUNT(" + column + ") FROM " + t
  }

  /** `columns.join(", ")`. */
  function ColumnList(cols: seq<string>): (r: string)
    ensures NoPlaceholders(cols) ==> NoPlaceholder(r)
  {
    JoinUnmarked(cols, ", ");
    Join(cols, ", ")
  }

  /** `columns.length ? columns.join(", ") : "*"`. */
  function StarList(cols: seq<string>): (r: string)
    ensures cols == [] ==> r == "*"
    ensures cols != [] ==> r == ColumnList(cols)
    ensures NoPlaceholders(cols) ==> NoPlaceholder(r)
  {
    if |cols| > 0 then ColumnList(cols) else "*"
  }

  // Fragments the fluent calls append

  datatype Connective = WhereKw | AndKw | OrKw | HavingKw

  function Keyword(c: Connective): (r: string)
    ensures NoPlaceholder(r) && Fragment(r)
  {
    match c
    case WhereKw => " WHERE"
    case AndKw => " AND"
    case OrKw => " OR"
    case HavingKw => " HAVING"
  }

  /** ` WHERE c op ?`, ` AND c op ?`, ` OR c op ?`, ` HAVING c op ?`. */
  function Condition(k: Connective, column: string, op: string): (r: string)
    ensures Fragment(r)
  {
    Keyword(k) + " " + column + " " + op + " ?"
  }

  /** The same with the numbered placeholder `$n`. */
  function NumberedCondition(k: Connective, column: string, op: string, n: nat): (r: string)
    ensures Fragment(r)
  {
    Keyword(k) + " " + column + " " + op + " $" + NatToString(n)
  }

  /** A condition carries exactly one `?` and no `$n`. */
  lemma ConditionMarks(k: Connective, column: string, op: string)
    requires NoPlaceholder(column) && NoPlaceholder(op)
    ensures QMarks(Condition(k, column, op)) == 1
    ensures DollarNumbers(Condition(k, column, op)) == []
  {
    var head := Keyword(k) + " " + column + " " + op + " ";
    assert Condition(k, column, op) == head + "?";
    CountCharConcat(head, "?", '?');
    CountCharAbsent(head, '?');
    DollarNone(head + "?");
  }

  /** A numbered condition carries exactly the number `n` and no `?`. */
  lemma NumberedConditionMarks(k: Connective, column: string, op: string, n: nat)
    requires NoPlaceholder(column) && NoPlaceholder(op)
    ensures DollarNumbers(NumberedCondition(k, column, op, n)) == [n]
    ensures QMarks(NumberedCondition(k, column, op, n)) == 0
  {
    var head := Keyword(k) + " " + column + " " + op + " ";
    var num := "$" + NatToString(n);
    assert NumberedCondition(k, column, op, n) == head + num;
    DollarSkip(head, num);
    DollarOne(n);
    CountCharConcat(head, num, '?');
    CountCharAbsent(head, '?');
    CountCharConcat("$", NatToString(n), '?');
    QMarksNumber(n);
  }

  datatype JoinKind = Inner | Left | Right

  function JoinWord(kind: JoinKind): (r: string)
    ensures NoPlaceholder(r)
  {
    match kind
    case Inner => "JOIN"
    case Left => "LEFT JOIN"
    case Right => "RIGHT JOIN"
  }

  /** ` JOIN t ON c1 op c2` and its left and right forms. */
  function JoinClause(kind: JoinKind, t: string, c1: string, op: string, c2: string): (r: string)
    ensures Fragment(r)
    ensures NoPlaceholder(t) && NoPlaceholder(c1) && NoPlaceholder(op) && NoPlaceholder(c2) ==> NoPlaceholder(r)
  {
    " " + JoinWord(kind) + " " + t + " ON " + c1 + " " + op + " " + c2
  }

  function GroupByClause(cols: seq<string>): (r: string)
    ensures Fragment(r)
    ensures NoPlaceholders(cols) ==> NoPlaceholder(r)
  {
    " GROUP BY " + ColumnList(cols)
  }

  function OrderByClause(column: string, direction: string): (r: string)
    ensures Fragment(r)
    ensures NoPlaceholder(column) && NoPlaceholder(direction) ==> NoPlaceholder(r)
  {
    " ORDER BY " + column + " " + direction
  }

  function LimitClause(n: int): (r: string)
    ensures Fragment(r) && NoPlaceholder(r)
  {
    NumberUnmarked(n);
    " LIMIT " + IntToString(n)
  }

  function OffsetClause(n: int): (r: string)
    ensures Fragment(r) && NoPlaceholder(r)
  {
    NumberUnmarked(n);
    " OFFSET " + IntToString(n)
  }

  /** Appending a fragment adds its placeholders after the query's own. */
  lemma Append(q: string, f: string)
    requires Fragment(f)
    ensures QMarks(q + f) == QMarks(q) + QMarks(f)
    ensures DollarNumbers(q + f) == DollarNumbers(q) + DollarNumbers(f)
  {
    CountCharConcat(q, f, '?');
    DollarConcat(q, f);
  }

  /** Appending the fragment numbered one past the params keeps the numbering consecutive. */
  lemma NumberedStep(q: string, f: string, n: nat)
    requires Fragment(f)
    requires DollarNumbers(q) == Numerals(1, n) && DollarNumbers(f) == [n + 1]
    ensures DollarNumbers(q + f) == Numerals(1, n + 1)
  {
    DollarConcat(q, f);
    NumeralsAppend(1, n, 1);
  }

  // Insert

  /** The argument of `insert`: an array of row objects, or one row object. */
  datatype InsertData = Rows(rows: seq<Js.Props>) | Record(row: Js.Props)

  /** `data.flatMap(Object.values)`: every row's values, row after row. */
  function FlatValues(rows: seq<Js.Props>): seq<Js.Value>
  {
    if rows == [] then [] else FlatValues(rows[..|rows| - 1]) + Js.Values(rows[|rows| - 1])
  }

  /** `INSERT INTO t (c1, …) VALUES <values>`. */
  function InsertSql(t: string, cols: seq<string>, values: string): string
  {
    "INSERT INTO " + t + " (" + ColumnList(cols) + ") VALUES " + values
  }

  function InsertHead(t: string, cols: seq<string>): (r: string)
    ensures NoPlaceholder(t) && NoPlaceholders(cols) ==> NoPlaceholder(r)
  {
    "INSERT INTO " + t + " (" + ColumnList(cols) + ") VALUES "
  }

  /** The placeholders of an insert are those of its VALUES text. */
  lemma InsertMarks(t: string, cols: seq<string>, values: string)
    requires NoPlaceholder(t) && NoPlaceholders(cols)
    ensures QMarks(InsertSql(t, cols, values)) == QMarks(values)
    ensures DollarNumbers(InsertSql(t, cols, values)) == DollarNumbers(values)
  {
    var head := InsertHead(t, cols);
    assert InsertSql(t, cols, values) == head + values;
    CountCharConcat(head, values, '?');
    CountCharAbsent(head, '?');
    DollarSkip(head, values);
  }

  /** `values.map(() => "?").join(", ")`. */
  function QuestionMarks(k: nat): string
  {
    Join(seq(k, _ => "?"), ", ")
  }

  lemma QuestionMarksCount(k: nat)
    ensures QMarks(QuestionMarks(k)) == k
    ensures '$' !in QuestionMarks(k)
  {
    var parts := seq(k, _ => "?");
    forall i | 0 <= i < k
      ensures CountChar(parts[i], '?') == 1
    {
      assert parts[i] == "?";
    }
    CountCharJoin(parts, ", ", '?', 1);
    JoinUnmarkedDollar(parts, ", ");
  }

  lemma {:induction false} JoinUnmarkedDollar(parts: seq<string>, sep: string)
    requires forall i :: 0 <= i < |parts| ==> '$' !in parts[i]
    requires '$' !in sep
    ensures '$' !in Join(parts, sep)
  {
    if |parts| > 1 {
      JoinUnmarkedDollar(parts[1..], sep);
    }
  }

  /** `$lo`, `$lo+1`, …: `k` numbered placeholders. */
  function Dollars(lo: nat, k: nat): (r: seq<string>)
    ensures |r| == k
  {
    seq(k, i requires 0 <= i < k => "$" + NatToString(lo + i))
  }

  function DollarList(lo: nat, k: nat): string
  {
    Join(Dollars(lo, k), ", ")
  }

  /** `$lo, …, $lo+k-1` numbers its placeholders consecutively from `lo`. */
  lemma DollarListNumbers(lo: nat, k: nat)
    ensures DollarNumbers(DollarList(lo, k)) == Numerals(lo, k)
    ensures QMarks(DollarList(lo, k)) == 0
  {
    var parts := Dollars(lo, k);
    forall i | 0 <= i < k
      ensures DollarNumbers(parts[i]) == [lo + i]
      ensures CountChar(parts[i], '?') == 0
    {
      DollarOne(lo + i);
      CountCharConcat("$", NatToString(lo + i), '?');
      QMarksNumber(lo + i);
    }
    DollarJoin(parts, ", ");
    PartNumbersEach(parts, lo);
    CountCharJoin(parts, ", ", '?', 0);
  }

  /** `($lo, …, $lo+k-1)`: the VALUES group of one row. */
  function Group(lo: nat, k: nat): string
  {
    "(" + DollarList(lo, k) + ")"
  }

  lemma GroupNumbers(lo: nat, k: nat)
    ensures DollarNumbers(Group(lo, k)) == Numerals(lo, k)
    ensures QMarks(Group(lo, k)) == 0
  {
    DollarListNumbers(lo, k);
    DollarSkip("(", DollarList(lo, k));
    DollarConcat("(" + DollarList(lo, k), ")");
    CountCharConcat("(" + DollarList(lo, k), ")", '?');
    CountCharConcat("(", DollarList(lo, k), '?');
  }

  /** One group per row, numbered on from where the previous row's group stopped. */
  function ValueGroups(rows: seq<Js.Props>): (r: seq<string>)
    ensures |r| == |rows|
  {
    if rows == [] then []
    else
      var before := rows[..|rows| - 1];
      ValueGroups(before) + [Group(1 + |FlatValues(before)|, |rows[|rows| - 1]|)]
  }

  /** The batch VALUES text numbers its placeholders `$1 … $N` over all rows' values. */
  lemma {:induction false} ValueGroupsNumbers(rows: seq<Js.Props>)
    ensures PartNumbers(ValueGroups(rows)) == Numerals(1, |FlatValues(rows)|)
  {
    if rows != [] {
      var before := rows[..|rows| - 1];
      var gs := ValueGroups(rows);
      assert gs[..|gs| - 1] == ValueGroups(before);
      ValueGroupsNumbers(before);
      GroupNumbers(1 + |FlatValues(before)|, |rows[|rows| - 1]|);
      NumeralsAppend(1, |FlatValues(before)|, |rows[|rows| - 1]|);
    }
  }

  lemma BatchValuesNumbers(rows: seq<Js.Props>)
    ensures DollarNumbers(Join(ValueGroups(rows), ", ")) == Numerals(1, |FlatValues(rows)|)
  {
    DollarJoin(ValueGroups(rows), ", ");
    ValueGroupsNumbers(rows);
  }

  /** One `?` insert of a row object: one placeholder per value, and the values as params. */
  function RecordInsertCall(t: string, row: Js.Props): (c: Call)
    ensures c.Execute? && c.params == Js.Values(row)
    ensures NoPlaceholder(t) && NoPlaceholders(Js.Keys(row)) ==> QMarks(c.sql) == |c.params|
  {
    var values := "(" + QuestionMarks(|row|) + ")";
    QuestionMarksCount(|row|);
    CountCharConcat("(" + QuestionMarks(|row|), ")", '?');
    CountCharConcat("(", QuestionMarks(|row|), '?');
    if NoPlaceholder(t) && NoPlaceholders(Js.Keys(row)) then
      InsertMarks(t, Js.Keys(row), values);
      Execute(InsertSql(t, Js.Keys(row), values), Js.Values(row))
    else Execute(InsertSql(t, Js.Keys(row), values), Js.Values(row))
  }

  // Update and delete, which keep no where text

  /** `k1 = ?, k2 = ?, …`. */
  function SetClause(keys: seq<string>): string
  {
    Join(seq(|keys|, i requires 0 <= i < |keys| => keys[i] + " = ?"), ", ")
  }

  lemma SetClauseMarks(keys: seq<string>)
    requires NoPlaceholders(keys)
    ensures QMarks(SetClause(keys)) == |keys|
    ensures '$' !in SetClause(keys)
  {
    var parts := seq(|keys|, i requires 0 <= i < |keys| => keys[i] + " = ?");
    forall i | 0 <= i < |keys|
      ensures CountChar(parts[i], '?') == 1 && '$' !in parts[i]
    {
      assert parts[i] == keys[i] + " = " + "?";
      CountCharConcat(keys[i] + " = ", "?", '?');
      CountCharAbsent(keys[i] + " = ", '?');
    }
    CountCharJoin(parts, ", ", '?', 1);
    JoinUnmarkedDollar(parts, ", ");
  }

  /** `k1 = $1, k2 = $2, …`. */
  function NumberedSetClause(keys: seq<string>): string
  {
    Join(seq(|keys|, i requires 0 <= i < |keys| => keys[i] + " = $" + NatToString(i + 1)), ", ")
  }

  lemma NumberedSetClauseNumbers(keys: seq<string>)
    requires NoPlaceholders(keys)
    ensures DollarNumbers(NumberedSetClause(keys)) == Numerals(1, |keys|)
  {
    var parts := seq(|keys|, i requires 0 <= i < |keys| => keys[i] + " = $" + NatToString(i + 1));
    forall i | 0 <= i < |keys|
      ensures DollarNumbers(parts[i]) == [1 + i]
    {
      assert parts[i] == keys[i] + " = " + ("$" + NatToString(i + 1));
      DollarSkip(keys[i] + " = ", "$" + NatToString(i + 1));
      DollarOne(i + 1);
    }
    DollarJoin(parts, ", ");
    PartNumbersEach(parts, 1);
  }

  function UpdateSql(t: string, assignments: string): string
  {
    "UPDATE " + t + " SET " + assignments
  }

  lemma UpdateMarks(t: string, assignments: string)
    requires NoPlaceholder(t)
    ensures QMarks(UpdateSql(t, assignments)) == QMarks(assignments)
    ensures DollarNumbers(UpdateSql(t, assignments)) == DollarNumbers(assignments)
  {
    var head := "UPDATE " + t + " SET ";
    assert UpdateSql(t, assignments) == head + assignments;
    CountCharConcat(head, assignments, '?');
    CountCharAbsent(head, '?');
    DollarSkip(head, assignments);
  }

  function DeleteSql(t: string): (r: string)
    ensures NoPlaceholder(t) ==> NoPlaceholder(r)
  {
    "DELETE FROM " + t
  }

  function TruncateSql(t: string): (r: string)
    ensures NoPlaceholder(t) ==> NoPlaceholder(r)
  {
    "TRUNCATE TABLE " + t
  }

  /** The `?` update as the builders write it: the SET list, then the data's values followed
      by `whereParams`, the parameters the where calls pushed. */
  function UpdateCall(t: string, data: Js.Props, whereParams: seq<Js.Value>): (c: Call)
    ensures c.Execute? && c.params == Js.Values(data) + whereParams
  {
    Execute(UpdateSql(t, SetClause(Js.Keys(data))), Js.Values(data) + whereParams)
  }

  /** The `?` update has a placeholder for each data value and for nothing else: the where
      parameters it passes on have none, and no row condition remains. */
  lemma UpdateDropsWhere(t: string, data: Js.Props, whereParams: seq<Js.Value>)
    requires NoPlaceholder(t) && NoPlaceholders(Js.Keys(data))
    ensures QMarks(UpdateCall(t, data, whereParams).sql) == |data|
    ensures |UpdateCall(t, data, whereParams).params| == |data| + |whereParams|
  {
    SetClauseMarks(Js.Keys(data));
    UpdateMarks(t, SetClause(Js.Keys(data)));
  }

  /** The update the where text was collected for: the SET list followed by that text. */
  function UpdateWhereCall(t: string, data: Js.Props, whereSql: string, whereParams: seq<Js.Value>): (c: Call)
    ensures c.Execute? && c.params == Js.Values(data) + whereParams
    ensures EndsWith(c.sql, whereSql)
  {
    var sql := UpdateSql(t, SetClause(Js.Keys(data))) + whereSql;
    assert sql[|sql| - |whereSql|..] == whereSql;
    Execute(sql, Js.Values(data) + whereParams)
  }

  /** With the where text kept, every parameter has its `?`. */
  lemma UpdateWhereBalanced(t: string, data: Js.Props, whereSql: string, whereParams: seq<Js.Value>)
    requires NoPlaceholder(t) && NoPlaceholders(Js.Keys(data))
    requires QMarks(whereSql) == |whereParams|
    ensures QMarks(UpdateWhereCall(t, data, whereSql, whereParams).sql)
         == |UpdateWhereCall(t, data, whereSql, whereParams).params|
  {
    var update := UpdateSql(t, SetClause(Js.Keys(data)));
    SetClauseMarks(Js.Keys(data));
    UpdateMarks(t, SetClause(Js.Keys(data)));
    CountCharConcat(update, whereSql, '?');
  }

  /** The `$n` update: `k1 = $1, …` with the data's values only. */
  function NumberedUpdateCall(t: string, data: Js.Props): (c: Call)
    ensures c.Execute? && c.params == Js.Values(data)
    ensures NoPlaceholder(t) && NoPlaceholders(Js.Keys(data)) ==>
      DollarNumbers(c.sql) == Numerals(1, |c.params|)
  {
    if NoPlaceholder(t) && NoPlaceholders(Js.Keys(data)) then
      NumberedSetClauseNumbers(Js.Keys(data));
      UpdateMarks(t, NumberedSetClause(Js.Keys(data)));
      Execute(UpdateSql(t, NumberedSetClause(Js.Keys(data))), Js.Values(data))
    else Execute(UpdateSql(t, NumberedSetClause(Js.Keys(data))), Js.Values(data))
  }

  /** The delete as the builders write it: `DELETE FROM t` with whatever params were pushed. */
  function DeleteCall(t: string, params: seq<Js.Value>): (c: Call)
    ensures c.Execute? && c.params == params
  {
    Execute(DeleteSql(t), params)
  }

  /** The delete statement has no placeholder in either dialect and no row condition, so every
      where parameter it is given is unmatched. */
  lemma DeleteDropsWhere(t: string, params: seq<Js.Value>)
    requires NoPlaceholder(t)
    ensures QMarks(DeleteCall(t, params).sql) == 0
    ensures DollarNumbers(DeleteCall(t, params).sql) == []
  {
    Unmarked(DeleteSql(t));
  }

  /** The delete the where text was collected for. */
  function DeleteWhereCall(t: string, whereSql: string, params: seq<Js.Value>): (c: Call)
    ensures c.Execute? && c.params == params
    ensures EndsWith(c.sql, whereSql)
  {
    var sql := DeleteSql(t) + whereSql;
    assert sql[|sql| - |whereSql|..] == whereSql;
    Execute(sql, params)
  }

  /** With the where text kept, the parameters match its placeholders in both dialects. */
  lemma DeleteWhereBalanced(t: string, whereSql: string, params: seq<Js.Value>)
    requires NoPlaceholder(t)
    ensures QMarks(whereSql) == |params| ==> QMarks(DeleteWhereCall(t, whereSql, params).sql) == |params|
    ensures DollarNumbers(whereSql) == Numerals(1, |params|) ==>
      DollarNumbers(DeleteWhereCall(t, whereSql, params).sql) == Numerals(1, |params|)
  {
    CountCharConcat(DeleteSql(t), whereSql, '?');
    Unmarked(DeleteSql(t));
    DollarSkip(DeleteSql(t), whereSql);
  }
}
