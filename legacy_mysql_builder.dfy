/** The older MySQL query builder, the one the database factory pairs with the MySQL adapter.
    It differs from the newer one in its guards: `orWhere` is never refused, `count` and `get`
    do not check the table, `update` rewrites the query before it checks for a where, and
    `truncate` passes the accumulated params. It clears itself after every statement the
    adapter ran. The adapter is the builder's log of calls. */
module LegacyMySqlBuilder {
  import opened Wrappers
  import opened Text
  import Js
  import opened Sql
  import opened QueryText

  const UpdateWithoutWhere: string := "Update operation requires a WHERE clause"
  const DeleteWithoutWhere: string := "Delete operation requires a WHERE clause"

  class MySqlQueryBuilder {
    var tableName: Option<string>
    var query: string
    var params: seq<Js.Value>
    var hasWhere: bool
    /** The calls the adapter received. */
    var log: seq<Call>

    function State(): Builder
      reads this
    {
      Builder(tableName, query, params, hasWhere, log)
    }

    /** Every `?` of the query text has its parameter, and every parameter its `?`. */
    predicate Balanced()
      reads this
    {
      QMarks(query) == |params|
    }

    constructor ()
      ensures State() == Builder(None, "", [], false, [])
    {
      tableName := None;
      query := "";
      params := [];
      hasWhere := false;
      log := [];
    }

    method Table(t: string)
      modifies this
      ensures State() == old(State()).(tableName := Some(t))
    {
      tableName := Some(t);
    }

    method Select(columns: seq<string>) returns (r: Result<()>)
      modifies this
      ensures !TableSet(old(tableName)) ==> r == Err(TableNotSet) && State() == old(State())
      ensures TableSet(old(tableName)) ==>
        r == Ok(()) && State() == old(State()).(query := SelectSql(ColumnList(columns), old(tableName).value))
      ensures r.Ok? && params == [] && NoPlaceholders(columns) && NoPlaceholder(tableName.value) ==> Balanced()
    {
      if !TableSet(tableName) {
        return Err(TableNotSet);
      }
      query := SelectSql(ColumnList(columns), tableName.value);
      if NoPlaceholders(columns) && NoPlaceholder(tableName.value) {
        Unmarked(query);
      }
      r := Ok(());
    }

    method Distinct(columns: seq<string>) returns (r: Result<()>)
      modifies this
      ensures !TableSet(old(tableName)) ==> r == Err(TableNotSet) && State() == old(State())
      ensures TableSet(old(tableName)) ==>
        r == Ok(()) && State() == old(State()).(query := DistinctSql(ColumnList(columns), old(tableName).value))
      ensures r.Ok? && params == [] && NoPlaceholders(columns) && NoPlaceholder(tableName.value) ==> Balanced()
    {
      if !TableSet(tableName) {
        return Err(TableNotSet);
      }
      query := DistinctSql(ColumnList(columns), tableName.value);
      if NoPlaceholders(columns) && NoPlaceholder(tableName.value) {
        Unmarked(query);
      }
      r := Ok(());
    }

    /** The first condition opens the WHERE clause, later ones are ANDed; one param each. */
    method Where(column: string, operator: string, value: Js.Value)
      modifies this
      ensures State() == old(State()).(
        query := old(query) + Condition(if old(hasWhere) then AndKw else WhereKw, column, operator),
        params := old(params) + [value],
        hasWhere := true)
      ensures old(Balanced()) && NoPlaceholder(column) && NoPlaceholder(operator) ==> Balanced()
    {
      var k := if hasWhere then AndKw else WhereKw;
      Append(query, Condition(k, column, operator));
      if NoPlaceholder(column) && NoPlaceholder(operator) {
        ConditionMarks(k, column, operator);
      }
      if !hasWhere {
        query := query + Condition(WhereKw, column, operator);
        hasWhere := true;
      } else {
        query := query + Condition(AndKw, column, operator);
      }
      params := params + [value];
    }

    method AndWhere(column: string, operator: string, value: Js.Value)
      modifies this
      ensures State() == old(State()).(
        query := old(query) + Condition(if old(hasWhere) then AndKw else WhereKw, column, operator),
        params := old(params) + [value],
        hasWhere := true)
      ensures old(Balanced()) && NoPlaceholder(column) && NoPlaceholder(operator) ==> Balanced()
    {
      Where(column, operator, value);
    }

    /** No guard: an OR condition may come first. */
    method OrWhere(column: string, operator: string, value: Js.Value)
      modifies this
      ensures State() == old(State()).(
        query := old(query) + Condition(OrKw, column, operator), params := old(params) + [value])
      ensures old(Balanced()) && NoPlaceholder(column) && NoPlaceholder(operator) ==> Balanced()
    {
      Append(query, Condition(OrKw, column, operator));
      if NoPlaceholder(column) && NoPlaceholder(operator) {
        ConditionMarks(OrKw, column, operator);
      }
      query := query + Condition(OrKw, column, operator);
      params := params + [value];
    }

    method Join(t: string, column1: string, operator: string, column2: string)
      modifies this
      ensures State() == old(State()).(query := old(query) + JoinClause(Inner, t, column1, operator, column2))
      ensures (old(Balanced()) && NoPlaceholder(t) && NoPlaceholder(column1) && NoPlaceholder(operator)
               && NoPlaceholder(column2)) ==> Balanced()
    {
      var f := JoinClause(Inner, t, column1, operator, column2);
      Append(query, f);
      if NoPlaceholder(f) {
        Unmarked(f);
      }
      query := query + f;
    }

    method LeftJoin(t: string, column1: string, operator: string, column2: string)
      modifies this
      ensures State() == old(State()).(query := old(query) + JoinClause(Left, t, column1, operator, column2))
      ensures (old(Balanced()) && NoPlaceholder(t) && NoPlaceholder(column1) && NoPlaceholder(operator)
               && NoPlaceholder(column2)) ==> Balanced()
    {
      var f := JoinClause(Left, t, column1, operator, column2);
      Append(query, f);
      if NoPlaceholder(f) {
        Unmarked(f);
      }
      query := query + f;
    }

    method RightJoin(t: string, column1: string, operator: string, column2: string)
      modifies this
      ensures State() == old(State()).(query := old(query) + JoinClause(Right, t, column1, operator, column2))
      ensures (old(Balanced()) && NoPlaceholder(t) && NoPlaceholder(column1) && NoPlaceholder(operator)
               && NoPlaceholder(column2)) ==> Balanced()
    {
      var f := JoinClause(Right, t, column1, operator, column2);
      Append(query, f);
      if NoPlaceholder(f) {
        Unmarked(f);
      }
      query := query + f;
    }

    method GroupBy(columns: seq<string>)
      modifies this
      ensures State() == old(State()).(query := old(query) + GroupByClause(columns))
      ensures old(Balanced()) && NoPlaceholders(columns) ==> Balanced()
    {
      var f := GroupByClause(columns);
      Append(query, f);
      if NoPlaceholder(f) {
        Unmarked(f);
      }
      query := query + f;
    }

    method Having(column: string, operator: string, value: Js.Value)
      modifies this
      ensures State() == old(State()).(
        query := old(query) + Condition(HavingKw, column, operator), params := old(params) + [value])
      ensures old(Balanced()) && NoPlaceholder(column) && NoPlaceholder(operator) ==> Balanced()
    {
      Append(query, Condition(HavingKw, column, operator));
      if NoPlaceholder(column) && NoPlaceholder(operator) {
        ConditionMarks(HavingKw, column, operator);
      }
      query := query + Condition(HavingKw, column, operator);
      params := params + [value];
    }

    method OrderBy(column: string, direction: string := "asc")
      modifies this
      ensures State() == old(State()).(query := old(query) + OrderByClause(column, direction))
      ensures old(Balanced()) && NoPlaceholder(column) && NoPlaceholder(direction) ==> Balanced()
    {
      var f := OrderByClause(column, direction);
      Append(query, f);
      if NoPlaceholder(f) {
        Unmarked(f);
      }
      query := query + f;
    }

    method Limit(n: int)
      modifies this
      ensures State() == old(State()).(query := old(query) + LimitClause(n))
      ensures old(Balanced()) ==> Balanced()
    {
      Append(query, LimitClause(n));
      Unmarked(LimitClause(n));
      query := query + LimitClause(n);
    }

    method Offset(n: int)
      modifies this
      ensures State() == old(State()).(query := old(query) + OffsetClause(n))
      ensures old(Balanced()) ==> Balanced()
    {
      Append(query, OffsetClause(n));
      Unmarked(OffsetClause(n));
      query := query + OffsetClause(n);
    }

    /** No table check: a builder without a table counts rows `FROM null`. */
    method Count(column: string := "*")
      modifies this
      ensures State() == old(State()).(query := CountSql(column, TableText(old(tableName))))
      ensures params == [] && NoPlaceholder(column) && NoPlaceholder(TableText(tableName)) ==> Balanced()
    {
      query := CountSql(column, TableText(tableName));
      if NoPlaceholder(column) && NoPlaceholder(TableText(tableName)) {
        Unmarked(query);
      }
    }

    /** No table check; the builder is cleared once the adapter answered. */
    method Get(answer: Answer) returns (r: Result<seq<Row>>)
      modifies this
      ensures r == answer && State() == Finish(old(State()), Query(old(query), old(params)), answer, true)
    {
      log := log + [Query(query, params)];
      if answer.Err? {
        return answer;
      }
      Clear();
      r := answer;
    }

    method First(answer: Answer) returns (r: Result<Js.Value>)
      modifies this
      ensures var limited := old(State()).(query := old(query) + LimitClause(1));
        r == FirstOf(answer) && State() == Finish(limited, Query(limited.query, limited.params), answer, true)
    {
      Limit(1);
      var rows := Get(answer);
      r := FirstOf(rows);
    }

    /** One row object: one `?` per value, the values as params. */
    method Insert(data: Js.Props, answer: Answer) returns (r: Result<()>)
      modifies this
      ensures !TableSet(old(tableName)) ==> r == Err(TableNotSet) && State() == old(State())
      ensures TableSet(old(tableName)) ==>
        var c := RecordInsertCall(old(tableName).value, data);
        r == Done(answer) && State() == Finish(old(State()).(query := c.sql, params := c.params), c, answer, true)
    {
      if !TableSet(tableName) {
        return Err(TableNotSet);
      }
      var c := RecordInsertCall(tableName.value, data);
      query := c.sql;
      params := c.params;
      log := log + [Execute(query, params)];
      if answer.Err? {
        return Err(answer.error);
      }
      Clear();
      r := Ok(());
    }

    /** The query text is rewritten before the where check, so a refused update leaves it
        changed; the statement drops the where text but passes its params after the data's. */
    method Update(data: Js.Props, answer: Answer) returns (r: Result<()>)
      modifies this
      ensures !TableSet(old(tableName)) ==> r == Err(TableNotSet) && State() == old(State())
      ensures TableSet(old(tableName)) && !old(hasWhere) ==>
        r == Err(UpdateWithoutWhere) &&
        State() == old(State()).(query := UpdateCall(old(tableName).value, data, old(params)).sql)
      ensures TableSet(old(tableName)) && old(hasWhere) ==>
        var c := UpdateCall(old(tableName).value, data, old(params));
        r == Done(answer) && State() == Finish(old(State()).(query := c.sql, params := c.params), c, answer, true)
    {
      if !TableSet(tableName) {
        return Err(TableNotSet);
      }
      var c := UpdateCall(tableName.value, data, params);
      query := c.sql;
      if !hasWhere {
        return Err(UpdateWithoutWhere);
      }
      params := c.params;
      log := log + [Execute(query, params)];
      if answer.Err? {
        return Err(answer.error);
      }
      Clear();
      r := Ok(());
    }

    method Delete(answer: Answer) returns (r: Result<()>)
      modifies this
      ensures !TableSet(old(tableName)) ==> r == Err(TableNotSet) && State() == old(State())
      ensures TableSet(old(tableName)) && !old(hasWhere) ==> r == Err(DeleteWithoutWhere) && State() == old(State())
      ensures TableSet(old(tableName)) && old(hasWhere) ==>
        var c := DeleteCall(old(tableName).value, old(params));
        r == Done(answer) && State() == Finish(old(State()).(query := c.sql), c, answer, true)
    {
      if !TableSet(tableName) {
        return Err(TableNotSet);
      }
      if !hasWhere {
        return Err(DeleteWithoutWhere);
      }
      query := DeleteSql(tableName.value);
      log := log + [Execute(query, params)];
      if answer.Err? {
        return Err(answer.error);
      }
      Clear();
      r := Ok(());
    }

    /** `TRUNCATE TABLE t`, run with the accumulated params. */
    method Truncate(answer: Answer) returns (r: Result<()>)
      modifies this
      ensures !TableSet(old(tableName)) ==> r == Err(TableNotSet) && State() == old(State())
      ensures TableSet(old(tableName)) ==>
        var c := Execute(TruncateSql(old(tableName).value), old(params));
        r == Done(answer) && State() == Finish(old(State()).(query := c.sql), c, answer, true)
    {
      if !TableSet(tableName) {
        return Err(TableNotSet);
      }
      query := TruncateSql(tableName.value);
      log := log + [Execute(query, params)];
      if answer.Err? {
        return Err(answer.error);
      }
      Clear();
      r := Ok(());
    }

    method Clear()
      modifies this
      ensures State() == old(State()).(query := "", params := [], hasWhere := false)
      ensures Balanced()
    {
      query := "";
      params := [];
      hasWhere := false;
    }
  }
}
