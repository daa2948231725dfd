/** The MySQL query builder. It accumulates one statement's text and its `?` parameters,
    refuses `orWhere`, `update` and `delete` before a `where`, and clears itself after every
    statement the adapter ran. The adapter is the builder's log of calls; what it answers is
    a parameter of each terminal operation. */
module MySqlBuilder {
  import opened Wrappers
  import opened Text
  import Js
  import opened Sql
  import opened QueryText

  const OrWhereWithoutWhere: string := "Cannot use 'orWhere' without 'where'"
  const UpdateWithoutWhere: string := "Update requires a WHERE clause"
  const DeleteWithoutWhere: string := "Delete requires a WHERE clause"

  /** The batch placeholders as written: the `N` pieces of `"?, …, ?".split(",")`, one per
      row, renamed `?1, …, ?N`. */
  function IndexedMarks(n: nat): string
  {
    Join(seq(n, i requires 0 <= i < n => "?" + NatToString(i + 1)), ", ")
  }

  lemma IndexedMarksCount(n: nat)
    ensures QMarks(IndexedMarks(n)) == n
  {
    var parts := seq(n, i requires 0 <= i < n => "?" + NatToString(i + 1));
    forall i | 0 <= i < n
      ensures CountChar(parts[i], '?') == 1
    {
      CountCharConcat("?", NatToString(i + 1), '?');
      QMarksNumber(i + 1);
    }
    CountCharJoin(parts, ", ", '?', 1);
  }

  /** The batch insert as written: the first row's keys, one VALUES group holding the
      indexed marks, and every row's values. */
  function BatchInsertCall(t: string, rows: seq<Js.Props>): (c: Call)
    requires |rows| > 0
    ensures c.Execute? && c.params == FlatValues(rows)
  {
    Execute(InsertSql(t, Js.Keys(rows[0]), "(" + IndexedMarks(|rows|) + ")"), FlatValues(rows))
  }

  lemma {:induction false} FlatValuesUniform(rows: seq<Js.Props>, k: nat)
    requires forall i :: 0 <= i < |rows| ==> |rows[i]| == k
    ensures |FlatValues(rows)| == k * |rows|
  {
    if rows != [] {
      FlatValuesUniform(rows[..|rows| - 1], k);
      MulStep(k, |rows|);
    }
  }

  /** As written, a batch of `N` rows of `k` values each has `N` placeholders for `N·k`
      parameters. */
  lemma BatchMarksPerRow(t: string, rows: seq<Js.Props>, k: nat)
    requires |rows| > 0 && NoPlaceholder(t) && NoPlaceholders(Js.Keys(rows[0]))
    requires forall i :: 0 <= i < |rows| ==> |rows[i]| == k
    ensures QMarks(BatchInsertCall(t, rows).sql) == |rows|
    ensures |BatchInsertCall(t, rows).params| == k * |rows|
  {
    var marks := IndexedMarks(|rows|);
    IndexedMarksCount(|rows|);
    CountCharConcat("(" + marks, ")", '?');
    CountCharConcat("(", marks, '?');
    InsertMarks(t, Js.Keys(rows[0]), "(" + marks + ")");
    FlatValuesUniform(rows, k);
  }

  /** One `(?, …, ?)` group per row, with as many marks as the row has values. */
  function QuestionGroups(rows: seq<Js.Props>): (r: seq<string>)
    ensures |r| == |rows|
  {
    if rows == [] then []
    else QuestionGroups(rows[..|rows| - 1]) + ["(" + QuestionMarks(|rows[|rows| - 1]|) + ")"]
  }

  lemma {:induction false} QuestionGroupsCount(rows: seq<Js.Props>)
    ensures QMarks(Join(QuestionGroups(rows), ", ")) == |FlatValues(rows)|
  {
    if rows != [] {
      var before := rows[..|rows| - 1];
      var last := rows[|rows| - 1];
      var g := "(" + QuestionMarks(|last|) + ")";
      QuestionMarksCount(|last|);
      CountCharConcat("(" + QuestionMarks(|last|), ")", '?');
      CountCharConcat("(", QuestionMarks(|last|), '?');
      QuestionGroupsCount(before);
      if before == [] {
        assert QuestionGroups(rows) == [g];
      } else {
        assert QuestionGroups(rows) == QuestionGroups(before) + [g];
        JoinAppend(QuestionGroups(before), [g], ", ");
        CountCharConcat(Join(QuestionGroups(before), ", ") + ", ", g, '?');
        CountCharConcat(Join(QuestionGroups(before), ", "), ", ", '?');
      }
    }
  }

  /** The batch insert the placeholders were meant for: one group per row. */
  function GroupedInsertCall(t: string, rows: seq<Js.Props>): (c: Call)
    requires |rows| > 0
    ensures c.Execute? && c.params == FlatValues(rows)
  {
    Execute(InsertSql(t, Js.Keys(rows[0]), Join(QuestionGroups(rows), ", ")), FlatValues(rows))
  }

  /** With one group per row, every parameter has its `?`. */
  lemma GroupedInsertBalanced(t: string, rows: seq<Js.Props>)
    requires |rows| > 0 && NoPlaceholder(t) && NoPlaceholders(Js.Keys(rows[0]))
    ensures QMarks(GroupedInsertCall(t, rows).sql) == |GroupedInsertCall(t, rows).params|
  {
    QuestionGroupsCount(rows);
    InsertMarks(t, Js.Keys(rows[0]), Join(QuestionGroups(rows), ", "));
  }

  /** The statement `insert` runs for a non-empty argument, as written. */
  function InsertCallOf(t: string, data: InsertData): (c: Call)
    requires data != Rows([])
    ensures c.Execute?
    ensures data.Record? ==> c == RecordInsertCall(t, data.row)
    ensures data.Rows? ==> c == BatchInsertCall(t, data.rows)
  {
    match data
    case Rows(rows) => BatchInsertCall(t, rows)
    case Record(row) => RecordInsertCall(t, row)
  }

  class MySqlQueryBuilder {
    var tableName: Option<string>
    var query: string
    var params: seq<Js.Value>
    var hasWhere: bool
    /** The calls the adapter received. */
    var log: seq<Call>

    function State(): Builder
      reads this
    {
      Builder(tableName, query, params, hasWhere, log)
    }

    /** Every `?` of the query text has its parameter, and every parameter its `?`. */
    predicate Balanced()
      reads this
    {
      QMarks(query) == |params|
    }

    constructor ()
      ensures State() == Builder(None, "", [], false, [])
    {
      tableName := None;
      query := "";
      params := [];
      hasWhere := false;
      log := [];
    }

    method Table(t: string)
      modifies this
      ensures State() == old(State()).(tableName := Some(t))
    {
      tableName := Some(t);
    }

    method Select(columns: seq<string>) returns (r: Result<()>)
      modifies this
      ensures !TableSet(old(tableName)) ==> r == Err(TableNotSet) && State() == old(State())
      ensures TableSet(old(tableName)) ==>
        r == Ok(()) && State() == old(State()).(query := SelectSql(ColumnList(columns), old(tableName).value))
      ensures r.Ok? && params == [] && NoPlaceholders(columns) && NoPlaceholder(tableName.value) ==> Balanced()
    {
      if !TableSet(tableName) {
        return Err(TableNotSet);
      }
      query := SelectSql(ColumnList(columns), tableName.value);
      if NoPlaceholders(columns) && NoPlaceholder(tableName.value) {
        Unmarked(query);
      }
      r := Ok(());
    }

    method Distinct(columns: seq<string>) returns (r: Result<()>)
      modifies this
      ensures !TableSet(old(tableName)) ==> r == Err(TableNotSet) && State() == old(State())
      ensures TableSet(old(tableName)) ==>
        r == Ok(()) && State() == old(State()).(query := DistinctSql(ColumnList(columns), old(tableName).value))
      ensures r.Ok? && params == [] && NoPlaceholders(columns) && NoPlaceholder(tableName.value) ==> Balanced()
    {
      if !TableSet(tableName) {
        return Err(TableNotSet);
      }
      query := DistinctSql(ColumnList(columns), tableName.value);
      if NoPlaceholders(columns) && NoPlaceholder(tableName.value) {
        Unmarked(query);
      }
      r := Ok(());
    }

    /** The first condition opens the WHERE clause, later ones are ANDed; one param each. */
    method Where(column: string, operator: string, value: Js.Value)
      modifies this
      ensures State() == old(State()).(
        query := old(query) + Condition(if old(hasWhere) then AndKw else WhereKw, column, operator),
        params := old(params) + [value],
        hasWhere := true)
      ensures old(Balanced()) && NoPlaceholder(column) && NoPlaceholder(operator) ==> Balanced()
    {
      var k := if hasWhere then AndKw else WhereKw;
      Append(query, Condition(k, column, operator));
      if NoPlaceholder(column) && NoPlaceholder(operator) {
        ConditionMarks(k, column, operator);
      }
      if !hasWhere {
        query := query + Condition(WhereKw, column, operator);
        hasWhere := true;
      } else {
        query := query + Condition(AndKw, column, operator);
      }
      params := params + [value];
    }

    method OrWhere(column: string, operator: string, value: Js.Value) returns (r: Result<()>)
      modifies this
      ensures !old(hasWhere) ==> r == Err(OrWhereWithoutWhere) && State() == old(State())
      ensures old(hasWhere) ==> r == Ok(()) && State() == old(State()).(
        query := old(query) + Condition(OrKw, column, operator), params := old(params) + [value])
      ensures old(Balanced()) && NoPlaceholder(column) && NoPlaceholder(operator) ==> Balanced()
    {
      if !hasWhere {
        return Err(OrWhereWithoutWhere);
      }
      Append(query, Condition(OrKw, column, operator));
      if NoPlaceholder(column) && NoPlaceholder(operator) {
        ConditionMarks(OrKw, column, operator);
      }
      query := query + Condition(OrKw, column, operator);
      params := params + [value];
      r := Ok(());
    }

    method Join(t: string, column1: string, operator: string, column2: string)
      modifies this
      ensures State() == old(State()).(query := old(query) + JoinClause(Inner, t, column1, operator, column2))
      ensures (old(Balanced()) && NoPlaceholder(t) && NoPlaceholder(column1) && NoPlaceholder(operator)
               && NoPlaceholder(column2)) ==> Balanced()
    {
      var f := JoinClause(Inner, t, column1, operator, column2);
      Append(query, f);
      if NoPlaceholder(f) {
        Unmarked(f);
      }
      query := query + f;
    }

    method LeftJoin(t: string, column1: string, operator: string, column2: string)
      modifies this
      ensures State() == old(State()).(query := old(query) + JoinClause(Left, t, column1, operator, column2))
      ensures (old(Balanced()) && NoPlaceholder(t) && NoPlaceholder(column1) && NoPlaceholder(operator)
               && NoPlaceholder(column2)) ==> Balanced()
    {
      var f := JoinClause(Left, t, column1, operator, column2);
      Append(query, f);
      if NoPlaceholder(f) {
        Unmarked(f);
      }
      query := query + f;
    }

    method RightJoin(t: string, column1: string, operator: string, column2: string)
      modifies this
      ensures State() == old(State()).(query := old(query) + JoinClause(Right, t, column1, operator, column2))
      ensures (old(Balanced()) && NoPlaceholder(t) && NoPlaceholder(column1) && NoPlaceholder(operator)
               && NoPlaceholder(column2)) ==> Balanced()
    {
      var f := JoinClause(Right, t, column1, operator, column2);
      Append(query, f);
      if NoPlaceholder(f) {
        Unmarked(f);
      }
      query := query + f;
    }

    method GroupBy(columns: seq<string>)
      modifies this
      ensures State() == old(State()).(query := old(query) + GroupByClause(columns))
      ensures old(Balanced()) && NoPlaceholders(columns) ==> Balanced()
    {
      var f := GroupByClause(columns);
      Append(query, f);
      if NoPlaceholder(f) {
        Unmarked(f);
      }
      query := query + f;
    }

    method Having(column: string, operator: string, value: Js.Value)
      modifies this
      ensures State() == old(State()).(
        query := old(query) + Condition(HavingKw, column, operator), params := old(params) + [value])
      ensures old(Balanced()) && NoPlaceholder(column) && NoPlaceholder(operator) ==> Balanced()
    {
      Append(query, Condition(HavingKw, column, operator));
      if NoPlaceholder(column) && NoPlaceholder(operator) {
        ConditionMarks(HavingKw, column, operator);
      }
      query := query + Condition(HavingKw, column, operator);
      params := params + [value];
    }

    method OrderBy(column: string, direction: string := "asc")
      modifies this
      ensures State() == old(State()).(query := old(query) + OrderByClause(column, direction))
      ensures old(Balanced()) && NoPlaceholder(column) && NoPlaceholder(direction) ==> Balanced()
    {
      var f := OrderByClause(column, direction);
      Append(query, f);
      if NoPlaceholder(f) {
        Unmarked(f);
      }
      query := query + f;
    }

    method Limit(n: int)
      modifies this
      ensures State() == old(State()).(query := old(query) + LimitClause(n))
      ensures old(Balanced()) ==> Balanced()
    {
      Append(query, LimitClause(n));
      Unmarked(LimitClause(n));
      query := query + LimitClause(n);
    }

    method Offset(n: int)
      modifies this
      ensures State() == old(State()).(query := old(query) + OffsetClause(n))
      ensures old(Balanced()) ==> Balanced()
    {
      Append(query, OffsetClause(n));
      Unmarked(OffsetClause(n));
      query := query + OffsetClause(n);
    }

    method Count(column: string := "*") returns (r: Result<()>)
      modifies this
      ensures !TableSet(old(tableName)) ==> r == Err(TableNotSet) && State() == old(State())
      ensures TableSet(old(tableName)) ==>
        r == Ok(()) && State() == old(State()).(query := CountSql(column, old(tableName).value))
      ensures r.Ok? && params == [] && NoPlaceholder(column) && NoPlaceholder(tableName.value) ==> Balanced()
    {
      if !TableSet(tableName) {
        return Err(TableNotSet);
      }
      query := CountSql(column, tableName.value);
      if NoPlaceholder(column) && NoPlaceholder(tableName.value) {
        Unmarked(query);
      }
      r := Ok(());
    }

    /** Runs the query with its params; the builder is cleared once the adapter answered. */
    method Get(answer: Answer) returns (r: Result<seq<Row>>)
      modifies this
      ensures !TableSet(old(tableName)) ==> r == Err(TableNotSet) && State() == old(State())
      ensures TableSet(old(tableName)) ==>
        r == answer && State() == Finish(old(State()), Query(old(query), old(params)), answer, true)
    {
      if !TableSet(tableName) {
        return Err(TableNotSet);
      }
      log := log + [Query(query, params)];
      if answer.Err? {
        return answer;
      }
      Clear();
      r := answer;
    }

    /** `limit(1)` is appended before `get` checks the table. */
    method First(answer: Answer) returns (r: Result<Js.Value>)
      modifies this
      ensures var limited := old(State()).(query := old(query) + LimitClause(1));
        && (!TableSet(old(tableName)) ==> r == Err(TableNotSet) && State() == limited)
        && (TableSet(old(tableName)) ==>
              r == FirstOf(answer) && State() == Finish(limited, Query(limited.query, limited.params), answer, true))
    {
      Limit(1);
      var rows := Get(answer);
      r := FirstOf(rows);
    }

    method Insert(data: InsertData, answer: Answer) returns (r: Result<()>)
      modifies this
      ensures !TableSet(old(tableName)) ==> r == Err(TableNotSet) && State() == old(State())
      ensures TableSet(old(tableName)) && data == Rows([]) ==> r == Err(NoFirstRow) && State() == old(State())
      ensures TableSet(old(tableName)) && data != Rows([]) ==>
        var c := InsertCallOf(old(tableName).value, data);
        r == Done(answer) && State() == Finish(old(State()).(query := c.sql, params := c.params), c, answer, true)
    {
      if !TableSet(tableName) {
        return Err(TableNotSet);
      }
      if data == Rows([]) {
        return Err(NoFirstRow);
      }
      var c := InsertCallOf(tableName.value, data);
      query := c.sql;
      params := c.params;
      log := log + [Execute(query, params)];
      if answer.Err? {
        return Err(answer.error);
      }
      Clear();
      r := Ok(());
    }

    /** Refused without a table or a where; the statement then drops the where text but
        passes its params after the data's values. */
    method Update(data: Js.Props, answer: Answer) returns (r: Result<()>)
      modifies this
      ensures !TableSet(old(tableName)) ==> r == Err(TableNotSet) && State() == old(State())
      ensures TableSet(old(tableName)) && !old(hasWhere) ==> r == Err(UpdateWithoutWhere) && State() == old(State())
      ensures TableSet(old(tableName)) && old(hasWhere) ==>
        var c := UpdateCall(old(tableName).value, data, old(params));
        r == Done(answer) && State() == Finish(old(State()).(query := c.sql, params := c.params), c, answer, true)
    {
      if !TableSet(tableName) {
        return Err(TableNotSet);
      }
      if !hasWhere {
        return Err(UpdateWithoutWhere);
      }
      var c := UpdateCall(tableName.value, data, params);
      query := c.sql;
      params := c.params;
      log := log + [Execute(query, params)];
      if answer.Err? {
        return Err(answer.error);
      }
      Clear();
      r := Ok(());
    }

    method Delete(answer: Answer) returns (r: Result<()>)
      modifies this
      ensures !TableSet(old(tableName)) ==> r == Err(TableNotSet) && State() == old(State())
      ensures TableSet(old(tableName)) && !old(hasWhere) ==> r == Err(DeleteWithoutWhere) && State() == old(State())
      ensures TableSet(old(tableName)) && old(hasWhere) ==>
        var c := DeleteCall(old(tableName).value, old(params));
        r == Done(answer) && State() == Finish(old(State()).(query := c.sql), c, answer, true)
    {
      if !TableSet(tableName) {
        return Err(TableNotSet);
      }
      if !hasWhere {
        return Err(DeleteWithoutWhere);
      }
      query := DeleteSql(tableName.value);
      log := log + [Execute(query, params)];
      if answer.Err? {
        return Err(answer.error);
      }
      Clear();
      r := Ok(());
    }

    /** `TRUNCATE TABLE t`, run without params. */
    method Truncate(answer: Answer) returns (r: Result<()>)
      modifies this
      ensures !TableSet(old(tableName)) ==> r == Err(TableNotSet) && State() == old(State())
      ensures TableSet(old(tableName)) ==>
        var c := Execute(TruncateSql(old(tableName).value), []);
        r == Done(answer) && State() == Finish(old(State()).(query := c.sql), c, answer, true)
    {
      if !TableSet(tableName) {
        return Err(TableNotSet);
      }
      query := TruncateSql(tableName.value);
      log := log + [Execute(query, [])];
      if answer.Err? {
        return Err(answer.error);
      }
      Clear();
      r := Ok(());
    }

    method Clear()
      modifies this
      ensures State() == old(State()).(query := "", params := [], hasWhere := false)
      ensures Balanced()
    {
      query := "";
      params := [];
      hasWhere := false;
    }
  }
}
