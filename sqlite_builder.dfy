/** The SQLite query builder. It writes `?` placeholders like the MySQL one but has no where
    guard, takes a single row in `insert`, empties the table for `truncate` with a DELETE,
    and never clears its query, params or where flag. The adapter is the builder's log. */
module SqliteBuilder {
  import opened Wrappers
  import opened Text
  import Js
  import opened Sql
  import opened QueryText

  class SqliteQueryBuilder {
    var tableName: Option<string>
    var query: string
    var params: seq<Js.Value>
    var whereUsed: bool
    /** The calls the adapter received. */
    var log: seq<Call>

    function State(): Builder
      reads this
    {
      Builder(tableName, query, params, whereUsed, log)
    }

    /** Every `?` of the query text has its parameter, and every parameter its `?`. */
    predicate Balanced()
      reads this
    {
      QMarks(query) == |params|
    }

    constructor ()
      ensures State() == Builder(None, "", [], false, [])
    {
      tableName := None;
      query := "";
      params := [];
      whereUsed := false;
      log := [];
    }

    method Table(t: string)
      modifies this
      ensures State() == old(State()).(tableName := Some(t))
    {
      tableName := Some(t);
    }

    /** `select([])` selects `*`. */
    method Select(columns: seq<string>) returns (r: Result<()>)
      modifies this
      ensures !TableSet(old(tableName)) ==> r == Err(TableNotSet) && State() == old(State())
      ensures TableSet(old(tableName)) ==>
        r == Ok(()) && State() == old(State()).(query := SelectSql(StarList(columns), old(tableName).value))
      ensures r.Ok? && params == [] && NoPlaceholders(columns) && NoPlaceholder(tableName.value) ==> Balanced()
    {
      if !TableSet(tableName) {
        return Err(TableNotSet);
      }
      query := SelectSql(StarList(columns), tableName.value);
      if NoPlaceholders(columns) && NoPlaceholder(tableName.value) {
        Unmarked(query);
      }
      r := Ok(());
    }

    method Where(column: string, operator: string, value: Js.Value)
      modifies this
      ensures State() == old(State()).(
        query := old(query) + Condition(if old(whereUsed) then AndKw else WhereKw, column, operator),
        params := old(params) + [value],
        hasWhere := true)
      ensures old(Balanced()) && NoPlaceholder(column) && NoPlaceholder(operator) ==> Balanced()
    {
      var clause := if whereUsed then AndKw else WhereKw;
      Append(query, Condition(clause, column, operator));
      if NoPlaceholder(column) && NoPlaceholder(operator) {
        ConditionMarks(clause, column, operator);
      }
      query := query + Condition(clause, column, operator);
      params := params + [value];
      whereUsed := true;
    }

    method AndWhere(column: string, operator: string, value: Js.Value)
      modifies this
      ensures State() == old(State()).(
        query := old(query) + Condition(if old(whereUsed) then AndKw else WhereKw, column, operator),
        params := old(params) + [value],
        hasWhere := true)
      ensures old(Balanced()) && NoPlaceholder(column) && NoPlaceholder(operator) ==> Balanced()
    {
      Where(column, operator, value);
    }

    /** No guard: an OR condition may come first. */
    method OrWhere(column: string, operator: string, value: Js.Value)
      modifies this
      ensures State() == old(State()).(
        query := old(query) + Condition(OrKw, column, operator), params := old(params) + [value])
      ensures old(Balanced()) && NoPlaceholder(column) && NoPlaceholder(operator) ==> Balanced()
    {
      Append(query, Condition(OrKw, column, operator));
      if NoPlaceholder(column) && NoPlaceholder(operator) {
        ConditionMarks(OrKw, column, operator);
      }
      query := query + Condition(OrKw, column, operator);
      params := params + [value];
    }

    method Join(t: string, column1: string, operator: string, column2: string)
      modifies this
      ensures State() == old(State()).(query := old(query) + JoinClause(Inner, t, column1, operator, column2))
      ensures (old(Balanced()) && NoPlaceholder(t) && NoPlaceholder(column1) && NoPlaceholder(operator)
               && NoPlaceholder(column2)) ==> Balanced()
    {
      var f := JoinClause(Inner, t, column1, operator, column2);
      Append(query, f);
      if NoPlaceholder(f) {
        Unmarked(f);
      }
      query := query + f;
    }

    method LeftJoin(t: string, column1: string, operator: string, column2: string)
      modifies this
      ensures State() == old(State()).(query := old(query) + JoinClause(Left, t, column1, operator, column2))
      ensures (old(Balanced()) && NoPlaceholder(t) && NoPlaceholder(column1) && NoPlaceholder(operator)
               && NoPlaceholder(column2)) ==> Balanced()
    {
      var f := JoinClause(Left, t, column1, operator, column2);
      Append(query, f);
      if NoPlaceholder(f) {
        Unmarked(f);
      }
      query := query + f;
    }

    method GroupBy(columns: seq<string>)
      modifies this
      ensures State() == old(State()).(query := old(query) + GroupByClause(columns))
      ensures old(Balanced()) && NoPlaceholders(columns) ==> Balanced()
    {
      var f := GroupByClause(columns);
      Append(query, f);
      if NoPlaceholder(f) {
        Unmarked(f);
      }
      query := query + f;
    }

    method Having(column: string, operator: string, value: Js.Value)
      modifies this
      ensures State() == old(State()).(
        query := old(query) + Condition(HavingKw, column, operator), params := old(params) + [value])
      ensures old(Balanced()) && NoPlaceholder(column) && NoPlaceholder(operator) ==> Balanced()
    {
      Append(query, Condition(HavingKw, column, operator));
      if NoPlaceholder(column) && NoPlaceholder(operator) {
        ConditionMarks(HavingKw, column, operator);
      }
      query := query + Condition(HavingKw, column, operator);
      params := params + [value];
    }

    /** The direction has no default here. */
    method OrderBy(column: string, direction: string)
      modifies this
      ensures State() == old(State()).(query := old(query) + OrderByClause(column, direction))
      ensures old(Balanced()) && NoPlaceholder(column) && NoPlaceholder(direction) ==> Balanced()
    {
      var f := OrderByClause(column, direction);
      Append(query, f);
      if NoPlaceholder(f) {
        Unmarked(f);
      }
      query := query + f;
    }

    method Limit(n: int)
      modifies this
      ensures State() == old(State()).(query := old(query) + LimitClause(n))
      ensures old(Balanced()) ==> Balanced()
    {
      Append(query, LimitClause(n));
      Unmarked(LimitClause(n));
      query := query + LimitClause(n);
    }

    method Offset(n: int)
      modifies this
      ensures State() == old(State()).(query := old(query) + OffsetClause(n))
      ensures old(Balanced()) ==> Balanced()
    {
      Append(query, OffsetClause(n));
      Unmarked(OffsetClause(n));
      query := query + OffsetClause(n);
    }

    method Get(answer: Answer) returns (r: Result<seq<Row>>)
      modifies this
      ensures !TableSet(old(tableName)) ==> r == Err(TableNotSet) && State() == old(State())
      ensures TableSet(old(tableName)) ==>
        r == answer && State() == Finish(old(State()), Query(old(query), old(params)), answer, false)
    {
      if !TableSet(tableName) {
        return Err(TableNotSet);
      }
      log := log + [Query(query, params)];
      r := answer;
    }

    method First(answer: Answer) returns (r: Result<Js.Value>)
      modifies this
      ensures var limited := old(State()).(query := old(query) + LimitClause(1));
        && (!TableSet(old(tableName)) ==> r == Err(TableNotSet) && State() == limited)
        && (TableSet(old(tableName)) ==>
              r == FirstOf(answer) && State() == Finish(limited, Query(limited.query, limited.params), answer, false))
    {
      Limit(1);
      var rows := Get(answer);
      r := FirstOf(rows);
    }

    /** One row object: one `?` per value, the values as params. */
    method Insert(data: Js.Props, answer: Answer) returns (r: Result<()>)
      modifies this
      ensures !TableSet(old(tableName)) ==> r == Err(TableNotSet) && State() == old(State())
      ensures TableSet(old(tableName)) ==>
        var c := RecordInsertCall(old(tableName).value, data);
        r == Done(answer) && State() == Finish(old(State()).(query := c.sql, params := c.params), c, answer, false)
      ensures r.Ok? && NoPlaceholder(tableName.value) && NoPlaceholders(Js.Keys(data)) ==> Balanced()
    {
      if !TableSet(tableName) {
        return Err(TableNotSet);
      }
      var c := RecordInsertCall(tableName.value, data);
      query := c.sql;
      params := c.params;
      log := log + [Execute(query, params)];
      r := Done(answer);
    }

    /** No where guard; the params become the data's values only. */
    method Update(data: Js.Props, answer: Answer) returns (r: Result<()>)
      modifies this
      ensures !TableSet(old(tableName)) ==> r == Err(TableNotSet) && State() == old(State())
      ensures TableSet(old(tableName)) ==>
        var c := UpdateCall(old(tableName).value, data, []);
        r == Done(answer) && State() == Finish(old(State()).(query := c.sql, params := c.params), c, answer, false)
      ensures r.Ok? && NoPlaceholder(tableName.value) && NoPlaceholders(Js.Keys(data)) ==> Balanced()
    {
      if !TableSet(tableName) {
        return Err(TableNotSet);
      }
      var c := UpdateCall(tableName.value, data, []);
      if NoPlaceholder(tableName.value) && NoPlaceholders(Js.Keys(data)) {
        UpdateDropsWhere(tableName.value, data, []);
      }
      query := c.sql;
      params := c.params;
      log := log + [Execute(query, params)];
      r := Done(answer);
    }

    method Delete(answer: Answer) returns (r: Result<()>)
      modifies this
      ensures !TableSet(old(tableName)) ==> r == Err(TableNotSet) && State() == old(State())
      ensures TableSet(old(tableName)) ==>
        var c := DeleteCall(old(tableName).value, old(params));
        r == Done(answer) && State() == Finish(old(State()).(query := c.sql), c, answer, false)
    {
      if !TableSet(tableName) {
        return Err(TableNotSet);
      }
      query := DeleteSql(tableName.value);
      log := log + [Execute(query, params)];
      r := Done(answer);
    }

    /** `truncate` is `DELETE FROM t`, run without params. */
    method Truncate(answer: Answer) returns (r: Result<()>)
      modifies this
      ensures !TableSet(old(tableName)) ==> r == Err(TableNotSet) && State() == old(State())
      ensures TableSet(old(tableName)) ==>
        var c := Execute(DeleteSql(old(tableName).value), []);
        r == Done(answer) && State() == Finish(old(State()).(query := c.sql), c, answer, false)
    {
      if !TableSet(tableName) {
        return Err(TableNotSet);
      }
      query := DeleteSql(tableName.value);
      log := log + [Execute(query, [])];
      r := Done(answer);
    }
  }
}
