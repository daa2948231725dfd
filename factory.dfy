/** `DatabaseFactory.ts` and `types.ts`: which adapter a connection configuration selects,
    and which query builder goes with an adapter. The objects themselves are named by their
    class, since the factory only chooses between them. */
module DatabaseFactory {
  import opened Wrappers
  import Js

  datatype AdapterKind = MySqlAdapter | SqliteAdapter | PostgreSqlAdapter

  /** What `createQueryBuilder` can be handed: one of the three adapters, or any other
      object implementing the `Database` interface. */
  datatype Database = Adapter(kind: AdapterKind) | OtherDatabase

  datatype BuilderKind = MySqlQueryBuilder | PostgreSqlQueryBuilder | SqliteQueryBuilder

  datatype Dialect = MySqlDialect | SqliteDialect | PostgresDialect

  const UnsupportedAdapter := "Unsupported database adapter"

  /** The text of the `type` field selecting each adapter. */
  function TypeName(k: AdapterKind): string {
    match k
    case MySqlAdapter => "mysql"
    case SqliteAdapter => "sqlite"
    case PostgreSqlAdapter => "postgresql"
  }

  function AdapterDialect(k: AdapterKind): Dialect {
    match k
    case MySqlAdapter => MySqlDialect
    case SqliteAdapter => SqliteDialect
    case PostgreSqlAdapter => PostgresDialect
  }

  function BuilderDialect(b: BuilderKind): Dialect {
    match b
    case MySqlQueryBuilder => MySqlDialect
    case PostgreSqlQueryBuilder => PostgresDialect
    case SqliteQueryBuilder => SqliteDialect
  }

  /** `config.type` as the error message interpolates it. */
  function TypeText(config: Js.Props): string {
    Js.ToText(Js.Lookup(config, "type").GetOr(Js.Undefined))
  }

  /** `isValidDatabase` of `types.ts`. */
  predicate IsValidDatabase(t: string) {
    t in ["mysql", "sqlite", "postgresql"]
  }

  /** `switch (config.type)`, compared with `===`. */
  function CreateAdapter(config: Js.Props): (r: Result<AdapterKind>)
    ensures r.Ok? <==> exists t :: Js.Lookup(config, "type") == Some(Js.Str(t)) && IsValidDatabase(t)
    ensures r.Ok? ==> Js.Lookup(config, "type") == Some(Js.Str(TypeName(r.value)))
    ensures r.Err? ==> r.error == "Unsupported database type: " + TypeText(config)
  {
    var t := Js.Lookup(config, "type");
    if t == Some(Js.Str("mysql")) then Ok(MySqlAdapter)
    else if t == Some(Js.Str("sqlite")) then Ok(SqliteAdapter)
    else if t == Some(Js.Str("postgresql")) then Ok(PostgreSqlAdapter)
    else Err("Unsupported database type: " + TypeText(config))
  }

  /** The `instanceof` chain. */
  function CreateQueryBuilder(adapter: Database): (r: Result<BuilderKind>)
    ensures r.Ok? <==> adapter.Adapter?
    ensures r.Ok? ==> BuilderDialect(r.value) == AdapterDialect(adapter.kind)
    ensures r.Err? ==> r.error == UnsupportedAdapter
  {
    match adapter
    case Adapter(MySqlAdapter) => Ok(MySqlQueryBuilder)
    case Adapter(PostgreSqlAdapter) => Ok(PostgreSqlQueryBuilder)
    case Adapter(SqliteAdapter) => Ok(SqliteQueryBuilder)
    case OtherDatabase => Err(UnsupportedAdapter)
  }

  /** Each adapter is selected by exactly one `type`: the one it is named by. */
  lemma CreateAdapterSelects(config: Js.Props, k: AdapterKind)
    ensures CreateAdapter(config) == Ok(k) <==> Js.Lookup(config, "type") == Some(Js.Str(TypeName(k)))
  {
  }

  /** The configuration type "pg", which the `ConnectionConfig` type admits, is refused. */
  lemma PgRefused(config: Js.Props)
    requires Js.Lookup(config, "type") == Some(Js.Str("pg"))
    ensures CreateAdapter(config) == Err("Unsupported database type: pg")
  {
  }

  /** Whatever adapter the factory makes, it also makes the builder of the same dialect,
      so `createQueryBuilder(createAdapter(config))` never throws. */
  lemma FactoryPairs(config: Js.Props)
    requires CreateAdapter(config).Ok?
    ensures CreateQueryBuilder(Adapter(CreateAdapter(config).value)).Ok?
    ensures BuilderDialect(CreateQueryBuilder(Adapter(CreateAdapter(config).value)).value)
         == AdapterDialect(CreateAdapter(config).value)
  {
  }
}
