/** The PostgreSQL query builder. It numbers each placeholder `$n` from the live parameter
    count, has no where guard on `orWhere`, `update` or `delete`, and never clears itself
    after a statement: only `reset` does. The adapter is the builder's log of calls. */
module PostgresBuilder {
  import opened Wrappers
  import opened Text
  import Js
  import opened Sql
  import opened QueryText

  /** The keys `insert` takes its column list from: those of the first row. */
  function FirstKeys(data: InsertData): seq<string>
    requires data != Rows([])
  {
    match data
    case Rows(rows) => Js.Keys(rows[0])
    case Record(row) => Js.Keys(row)
  }

  /** The statement `insert` runs for a non-empty argument: one numbered group per row for an
      array, `($1, …, $k)` for one row. Its placeholders are `$1 … $n` in order, one per
      parameter. */
  function NumberedInsertCallOf(t: string, data: InsertData): (c: Call)
    requires data != Rows([])
    ensures c.Execute?
    ensures data.Rows? ==> c.params == FlatValues(data.rows)
    ensures data.Record? ==> c.params == Js.Values(data.row)
    ensures NoPlaceholder(t) && NoPlaceholders(FirstKeys(data)) ==> DollarNumbers(c.sql) == Numerals(1, |c.params|)
  {
    match data
    case Rows(rows) =>
      var values := Join(ValueGroups(rows), ", ");
      BatchValuesNumbers(rows);
      if NoPlaceholder(t) && NoPlaceholders(Js.Keys(rows[0])) then
        InsertMarks(t, Js.Keys(rows[0]), values);
        Execute(InsertSql(t, Js.Keys(rows[0]), values), FlatValues(rows))
      else Execute(InsertSql(t, Js.Keys(rows[0]), values), FlatValues(rows))
    case Record(row) =>
      GroupNumbers(1, |row|);
      if NoPlaceholder(t) && NoPlaceholders(Js.Keys(row)) then
        InsertMarks(t, Js.Keys(row), Group(1, |row|));
        Execute(InsertSql(t, Js.Keys(row), Group(1, |row|)), Js.Values(row))
      else Execute(InsertSql(t, Js.Keys(row), Group(1, |row|)), Js.Values(row))
  }

  /** The batch VALUES text, built with the running `paramIndex++` counter. */
  method BatchValues(rows: seq<Js.Props>) returns (values: string)
    ensures values == Join(ValueGroups(rows), ", ")
  {
    var paramIndex: nat := 1;
    var groups: seq<string> := [];
    var i := 0;
    while i < |rows|
      invariant 0 <= i <= |rows|
      invariant groups == ValueGroups(rows[..i])
      invariant paramIndex == 1 + |FlatValues(rows[..i])|
    {
      var row := Js.Values(rows[i]);
      ghost var lo := paramIndex;
      var marks: seq<string> := [];
      var j := 0;
      while j < |row|
        invariant 0 <= j <= |row|
        invariant marks == Dollars(lo, j)
        invariant paramIndex == lo + j
      {
        marks := marks + ["$" + NatToString(paramIndex)];
        paramIndex := paramIndex + 1;
        j := j + 1;
      }
      groups := groups + ["(" + Join(marks, ", ") + ")"];
      assert rows[..i + 1][..i] == rows[..i];
      i := i + 1;
    }
    assert rows[..i] == rows;
    values := Join(groups, ", ");
  }

  class PostgreSqlQueryBuilder {
    var tableName: Option<string>
    var query: string
    var params: seq<Js.Value>
    var whereUsed: bool
    /** The calls the adapter received. */
    var log: seq<Call>

    function State(): Builder
      reads this
    {
      Builder(tableName, query, params, whereUsed, log)
    }

    /** The placeholders of the query text are exactly `$1 … $n` in order, `n` the number of
        params. */
    predicate Numbered()
      reads this
    {
      DollarNumbers(query) == Numerals(1, |params|)
    }

    constructor ()
      ensures State() == Builder(None, "", [], false, [])
    {
      tableName := None;
      query := "";
      params := [];
      whereUsed := false;
      log := [];
    }

    method Table(t: string)
      modifies this
      ensures State() == old(State()).(tableName := Some(t))
    {
      tableName := Some(t);
    }

    /** `select([])` selects `*`. */
    method Select(columns: seq<string>) returns (r: Result<()>)
      modifies this
      ensures !TableSet(old(tableName)) ==> r == Err(TableNotSet) && State() == old(State())
      ensures TableSet(old(tableName)) ==>
        r == Ok(()) && State() == old(State()).(query := SelectSql(StarList(columns), old(tableName).value))
      ensures r.Ok? && params == [] && NoPlaceholders(columns) && NoPlaceholder(tableName.value) ==> Numbered()
    {
      if !TableSet(tableName) {
        return Err(TableNotSet);
      }
      query := SelectSql(StarList(columns), tableName.value);
      if NoPlaceholders(columns) && NoPlaceholder(tableName.value) {
        Unmarked(query);
      }
      r := Ok(());
    }

    /** Appends a condition numbered one past the current params, then pushes its value. */
    method Where(column: string, operator: string, value: Js.Value)
      modifies this
      ensures State() == old(State()).(
        query := old(query) + NumberedCondition(if old(whereUsed) then AndKw else WhereKw, column, operator, |old(params)| + 1),
        params := old(params) + [value],
        hasWhere := true)
      ensures old(Numbered()) && NoPlaceholder(column) && NoPlaceholder(operator) ==> Numbered()
    {
      var clause := if whereUsed then AndKw else WhereKw;
      var f := NumberedCondition(clause, column, operator, |params| + 1);
      if old(Numbered()) && NoPlaceholder(column) && NoPlaceholder(operator) {
        NumberedConditionMarks(clause, column, operator, |params| + 1);
        NumberedStep(query, f, |params|);
      }
      query := query + f;
      params := params + [value];
      whereUsed := true;
    }

    method AndWhere(column: string, operator: string, value: Js.Value)
      modifies this
      ensures State() == old(State()).(
        query := old(query) + NumberedCondition(if old(whereUsed) then AndKw else WhereKw, column, operator, |old(params)| + 1),
        params := old(params) + [value],
        hasWhere := true)
      ensures old(Numbered()) && NoPlaceholder(column) && NoPlaceholder(operator) ==> Numbered()
    {
      Where(column, operator, value);
    }

    method OrWhere(column: string, operator: string, value: Js.Value)
      modifies this
      ensures State() == old(State()).(
        query := old(query) + NumberedCondition(OrKw, column, operator, |old(params)| + 1),
        params := old(params) + [value])
      ensures old(Numbered()) && NoPlaceholder(column) && NoPlaceholder(operator) ==> Numbered()
    {
      var f := NumberedCondition(OrKw, column, operator, |params| + 1);
      if old(Numbered()) && NoPlaceholder(column) && NoPlaceholder(operator) {
        NumberedConditionMarks(OrKw, column, operator, |params| + 1);
        NumberedStep(query, f, |params|);
      }
      query := query + f;
      params := params + [value];
    }

    method Join(t: string, column1: string, operator: string, column2: string)
      modifies this
      ensures State() == old(State()).(query := old(query) + JoinClause(Inner, t, column1, operator, column2))
      ensures (old(Numbered()) && NoPlaceholder(t) && NoPlaceholder(column1) && NoPlaceholder(operator)
               && NoPlaceholder(column2)) ==> Numbered()
    {
      var f := JoinClause(Inner, t, column1, operator, column2);
      Append(query, f);
      if NoPlaceholder(f) {
        Unmarked(f);
      }
      query := query + f;
    }

    method LeftJoin(t: string, column1: string, operator: string, column2: string)
      modifies this
      ensures State() == old(State()).(query := old(query) + JoinClause(Left, t, column1, operator, column2))
      ensures (old(Numbered()) && NoPlaceholder(t) && NoPlaceholder(column1) && NoPlaceholder(operator)
               && NoPlaceholder(column2)) ==> Numbered()
    {
      var f := JoinClause(Left, t, column1, operator, column2);
      Append(query, f);
      if NoPlaceholder(f) {
        Unmarked(f);
      }
      query := query + f;
    }

    method GroupBy(columns: seq<string>)
      modifies this
      ensures State() == old(State()).(query := old(query) + GroupByClause(columns))
      ensures old(Numbered()) && NoPlaceholders(columns) ==> Numbered()
    {
      var f := GroupByClause(columns);
      Append(query, f);
      if NoPlaceholder(f) {
        Unmarked(f);
      }
      query := query + f;
    }

    method Having(column: string, operator: string, value: Js.Value)
      modifies this
      ensures State() == old(State()).(
        query := old(query) + NumberedCondition(HavingKw, column, operator, |old(params)| + 1),
        params := old(params) + [value])
      ensures old(Numbered()) && NoPlaceholder(column) && NoPlaceholder(operator) ==> Numbered()
    {
      var f := NumberedCondition(HavingKw, column, operator, |params| + 1);
      if old(Numbered()) && NoPlaceholder(column) && NoPlaceholder(operator) {
        NumberedConditionMarks(HavingKw, column, operator, |params| + 1);
        NumberedStep(query, f, |params|);
      }
      query := query + f;
      params := params + [value];
    }

    method OrderBy(column: string, direction: string := "asc")
      modifies this
      ensures State() == old(State()).(query := old(query) + OrderByClause(column, direction))
      ensures old(Numbered()) && NoPlaceholder(column) && NoPlaceholder(direction) ==> Numbered()
    {
      var f := OrderByClause(column, direction);
      Append(query, f);
      if NoPlaceholder(f) {
        Unmarked(f);
      }
      query := query + f;
    }

    method Limit(n: int)
      modifies this
      ensures State() == old(State()).(query := old(query) + LimitClause(n))
      ensures old(Numbered()) ==> Numbered()
    {
      Append(query, LimitClause(n));
      Unmarked(LimitClause(n));
      query := query + LimitClause(n);
    }

    method Offset(n: int)
      modifies this
      ensures State() == old(State()).(query := old(query) + OffsetClause(n))
      ensures old(Numbered()) ==> Numbered()
    {
      Append(query, OffsetClause(n));
      Unmarked(OffsetClause(n));
      query := query + OffsetClause(n);
    }

    /** Runs the query with its params and keeps both. */
    method Get(answer: Answer) returns (r: Result<seq<Row>>)
      modifies this
      ensures !TableSet(old(tableName)) ==> r == Err(TableNotSet) && State() == old(State())
      ensures TableSet(old(tableName)) ==>
        r == answer && State() == Finish(old(State()), Query(old(query), old(params)), answer, false)
    {
      if !TableSet(tableName) {
        return Err(TableNotSet);
      }
      log := log + [Query(query, params)];
      r := answer;
    }

    method First(answer: Answer) returns (r: Result<Js.Value>)
      modifies this
      ensures var limited := old(State()).(query := old(query) + LimitClause(1));
        && (!TableSet(old(tableName)) ==> r == Err(TableNotSet) && State() == limited)
        && (TableSet(old(tableName)) ==>
              r == FirstOf(answer) && State() == Finish(limited, Query(limited.query, limited.params), answer, false))
    {
      Limit(1);
      var rows := Get(answer);
      r := FirstOf(rows);
    }

    /** No table check: a builder without a table inserts into `null`. */
    method Insert(data: InsertData, answer: Answer) returns (r: Result<()>)
      modifies this
      ensures data == Rows([]) ==> r == Err(NoFirstRow) && State() == old(State())
      ensures data != Rows([]) ==>
        var c := NumberedInsertCallOf(TableText(old(tableName)), data);
        r == Done(answer) && State() == Finish(old(State()).(query := c.sql, params := c.params), c, answer, false)
      ensures data != Rows([]) && NoPlaceholder(TableText(tableName)) && NoPlaceholders(FirstKeys(data)) ==> Numbered()
    {
      if data == Rows([]) {
        return Err(NoFirstRow);
      }
      var t := TableText(tableName);
      if data.Rows? {
        var values := BatchValues(data.rows);
        query := InsertSql(t, Js.Keys(data.rows[0]), values);
        params := FlatValues(data.rows);
      } else {
        query := InsertSql(t, Js.Keys(data.row), Group(1, |data.row|));
        params := Js.Values(data.row);
      }
      log := log + [Execute(query, params)];
      r := Done(answer);
    }

    /** No where guard: every row gets the SET list, numbered `$1 … $k`, and the params are
        the data's values only. */
    method Update(data: Js.Props, answer: Answer) returns (r: Result<()>)
      modifies this
      ensures !TableSet(old(tableName)) ==> r == Err(TableNotSet) && State() == old(State())
      ensures TableSet(old(tableName)) ==>
        var c := NumberedUpdateCall(old(tableName).value, data);
        r == Done(answer) && State() == Finish(old(State()).(query := c.sql, params := c.params), c, answer, false)
      ensures r.Ok? && NoPlaceholder(tableName.value) && NoPlaceholders(Js.Keys(data)) ==> Numbered()
    {
      if !TableSet(tableName) {
        return Err(TableNotSet);
      }
      var c := NumberedUpdateCall(tableName.value, data);
      query := c.sql;
      params := c.params;
      log := log + [Execute(query, params)];
      r := Done(answer);
    }

    /** No where guard: `DELETE FROM t` with whatever params were pushed. */
    method Delete(answer: Answer) returns (r: Result<()>)
      modifies this
      ensures !TableSet(old(tableName)) ==> r == Err(TableNotSet) && State() == old(State())
      ensures TableSet(old(tableName)) ==>
        var c := DeleteCall(old(tableName).value, old(params));
        r == Done(answer) && State() == Finish(old(State()).(query := c.sql), c, answer, false)
    {
      if !TableSet(tableName) {
        return Err(TableNotSet);
      }
      query := DeleteSql(tableName.value);
      log := log + [Execute(query, params)];
      r := Done(answer);
    }

    method Truncate(answer: Answer) returns (r: Result<()>)
      modifies this
      ensures !TableSet(old(tableName)) ==> r == Err(TableNotSet) && State() == old(State())
      ensures TableSet(old(tableName)) ==>
        var c := Execute(TruncateSql(old(tableName).value), []);
        r == Done(answer) && State() == Finish(old(State()).(query := c.sql), c, answer, false)
    {
      if !TableSet(tableName) {
        return Err(TableNotSet);
      }
      query := TruncateSql(tableName.value);
      log := log + [Execute(query, [])];
      r := Done(answer);
    }

    method Reset()
      modifies this
      ensures State() == old(State()).(query := "", params := [], hasWhere := false)
      ensures Numbered()
    {
      query := "";
      params := [];
      whereUsed := false;
    }
  }
}
