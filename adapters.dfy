/** What the three database adapters share: the fixed error messages, the way a connection
    attempt can go at the driver, and the configuration handed to the driver. The driver
    itself is the log of calls that reach it plus the answer it gives, a parameter of each
    operation. */
module Adapters {
  import opened Wrappers
  import Js
  import Sql

  const NotConnected := "Database not connected. Call 'connect()' first."
  const QueryFailed := "Database query execution failed."
  const ExecutionFailed := "Database execution failed."

  /** How a connection attempt goes at the driver: its package cannot be loaded, it loads
      but refuses to open the connection, or the connection opens. */
  datatype Attempt = LoadFails | OpenFails | Opens

  /** `const { type, ...rest } = config`: the configuration without its `type` key; every
      other key keeps its value. */
  function DriverConfig(config: Js.Props): (r: Js.Props)
    ensures Js.Lookup(r, "type") == None
    ensures forall k :: k != "type" ==> Js.Lookup(r, k) == Js.Lookup(config, k)
  {
    Js.LookupRemove(config, "type", "type");
    Js.RemoveKeeps(config, "type");
    Js.Remove(config, "type")
  }

  /** The answer an adapter gives for a call that reached the driver: the driver's rows, or
      the fixed message in place of whatever the driver threw. */
  function Relayed(answer: Sql.Answer, failure: string): (r: Sql.Answer)
    ensures r.Ok? <==> answer.Ok?
    ensures r.Ok? ==> r.value == answer.value
    ensures r.Err? ==> r.error == failure
  {
    if answer.Ok? then answer else Err(failure)
  }
}

/** `adapter/MySQLAdapter.ts`: the `connection` field is the connection state. */
module MySqlAdapter {
  import opened Wrappers
  import Js
  import Sql
  import opened Adapters

  const ConnectFailed := "Failed to establish a MySQL connection."

  class MySqlAdapter {
    const driver: string
    /** The open connection, made from the driver configuration; `None` is `null`. */
    var connection: Option<Js.Props>
    /** The calls that reached the driver, in order. */
    var log: seq<Sql.Call>

    constructor ()
      ensures driver == "mysql" && connection == None && log == []
    {
      driver := "mysql";
      connection := None;
      log := [];
    }

    /** An open adapter only warns; otherwise the connection is made from the configuration
        without `type`, and any failure leaves the adapter closed. */
    method Connect(config: Js.Props, attempt: Attempt) returns (r: Result<()>)
      modifies this
      ensures log == old(log)
      ensures old(connection).Some? ==> connection == old(connection) && r == Ok(())
      ensures old(connection).None? && attempt.Opens? ==> connection == Some(DriverConfig(config)) && r == Ok(())
      ensures old(connection).None? && !attempt.Opens? ==> connection == None && r == Err(ConnectFailed)
    {
      if connection.Some? {
        r := Ok(());
        return;
      }
      if attempt.Opens? {
        connection := Some(DriverConfig(config));
        r := Ok(());
      } else {
        r := Err(ConnectFailed);
      }
    }

    /** Closes the connection whatever `end()` answers, and never fails. */
    method Disconnect(ending: Result<()>) returns (r: Result<()>)
      modifies this
      ensures connection == None && log == old(log) && r == Ok(())
    {
      if connection.None? {
        r := Ok(());
        return;
      }
      connection := None;
      r := Ok(());
    }

    method EnsureConnected() returns (r: Result<()>)
      ensures r.Ok? <==> connection.Some?
      ensures r.Err? ==> r.error == NotConnected
    {
      if connection.None? {
        r := Err(NotConnected);
      } else {
        r := Ok(());
      }
    }

    /** A closed adapter refuses before the driver sees the call. */
    method Query(sql: string, params: seq<Js.Value>, answer: Sql.Answer) returns (r: Sql.Answer)
      modifies this
      ensures connection == old(connection)
      ensures old(connection).None? ==> log == old(log) && r == Err(NotConnected)
      ensures old(connection).Some? ==> log == old(log) + [Sql.Query(sql, params)] && r == Relayed(answer, QueryFailed)
    {
      var ready := EnsureConnected();
      if ready.Err? {
        r := Err(ready.error);
        return;
      }
      log := log + [Sql.Query(sql, params)];
      r := Relayed(answer, QueryFailed);
    }

    method Execute(sql: string, params: seq<Js.Value>, answer: Sql.Answer) returns (r: Sql.Answer)
      modifies this
      ensures connection == old(connection)
      ensures old(connection).None? ==> log == old(log) && r == Err(NotConnected)
      ensures old(connection).Some? ==> log == old(log) + [Sql.Execute(sql, params)] && r == Relayed(answer, ExecutionFailed)
    {
      var ready := EnsureConnected();
      if ready.Err? {
        r := Err(ready.error);
        return;
      }
      log := log + [Sql.Execute(sql, params)];
      r := Relayed(answer, ExecutionFailed);
    }
  }
}

/** `adapter/PostgreSQLAdapter.ts`: the `client` field is the connection state. It is set
    before the client connects, so a refused connection leaves it set. */
module PostgresAdapter {
  import opened Wrappers
  import Js
  import Sql
  import opened Adapters

  const ConnectFailed := "Failed to establish a PostgreSQL connection."

  /** What `connect` leaves in `client` and what it answers. The client is stored before it
      connects, and the failure handler does not clear it. */
  function ConnectStep(client: Option<Js.Props>, config: Js.Props, attempt: Attempt): (Option<Js.Props>, Result<()>)
  {
    if client.Some? then (client, Ok(()))
    else match attempt
      case LoadFails => (None, Err(ConnectFailed))
      case OpenFails => (Some(DriverConfig(config)), Err(ConnectFailed))
      case Opens => (Some(DriverConfig(config)), Ok(()))
  }

  /** A refused open fails, yet leaves a client behind: the next `connect` then answers success
      whatever the driver would do, and `ensureConnected` lets queries reach a client that
      never connected. */
  lemma RefusedOpenKeepsClient(config: Js.Props, retry: Attempt)
    ensures ConnectStep(None, config, OpenFails) == (Some(DriverConfig(config)), Err(ConnectFailed))
    ensures ConnectStep(ConnectStep(None, config, OpenFails).0, config, retry) == (Some(DriverConfig(config)), Ok(()))
  {
  }

  /** `connect` with the client cleared when the connection is refused. */
  function IntendedConnectStep(client: Option<Js.Props>, config: Js.Props, attempt: Attempt): (Option<Js.Props>, Result<()>)
  {
    if client.Some? then (client, Ok(()))
    else match attempt
      case Opens => (Some(DriverConfig(config)), Ok(()))
      case _ => (None, Err(ConnectFailed))
  }

  /** With the intended `connect`, a client exists exactly when one existed or the call
      succeeded, a fresh call succeeds exactly when the connection opens, and a retry after a
      refusal is a fresh attempt. It differs from the code only on a refused open. */
  lemma IntendedConnectHonest(client: Option<Js.Props>, config: Js.Props, attempt: Attempt, retry: Attempt)
    ensures var (c, r) := IntendedConnectStep(client, config, attempt);
      && (c.Some? <==> client.Some? || r.Ok?)
      && (client.Some? ==> c == client && r == Ok(()))
      && (client.None? ==> (r.Ok? <==> attempt.Opens?) && (r.Err? ==> r.error == ConnectFailed))
    ensures attempt != OpenFails ==> IntendedConnectStep(client, config, attempt) == ConnectStep(client, config, attempt)
    ensures var failed := IntendedConnectStep(None, config, OpenFails).0;
      IntendedConnectStep(failed, config, retry) == IntendedConnectStep(None, config, retry)
  {
  }

  class PostgreSqlAdapter {
    const driver: string
    /** The client, made from the driver configuration; `None` is `null`. */
    var client: Option<Js.Props>
    var log: seq<Sql.Call>

    constructor ()
      ensures driver == "postgresql" && client == None && log == []
    {
      driver := "postgresql";
      client := None;
      log := [];
    }

    method Connect(config: Js.Props, attempt: Attempt) returns (r: Result<()>)
      modifies this
      ensures log == old(log)
      ensures (client, r) == ConnectStep(old(client), config, attempt)
    {
      if client.Some? {
        r := Ok(());
        return;
      }
      if attempt.LoadFails? {
        r := Err(ConnectFailed);
        return;
      }
      client := Some(DriverConfig(config));
      if attempt.OpenFails? {
        r := Err(ConnectFailed);
      } else {
        r := Ok(());
      }
    }

    method Disconnect(ending: Result<()>) returns (r: Result<()>)
      modifies this
      ensures client == None && log == old(log) && r == Ok(())
    {
      if client.None? {
        r := Ok(());
        return;
      }
      client := None;
      r := Ok(());
    }

    method EnsureConnected() returns (r: Result<()>)
      ensures r.Ok? <==> client.Some?
      ensures r.Err? ==> r.error == NotConnected
    {
      if client.None? {
        r := Err(NotConnected);
      } else {
        r := Ok(());
      }
    }

    /** Both `query` and `execute` go through `client.query` and answer with its rows. */
    method Query(sql: string, params: seq<Js.Value>, answer: Sql.Answer) returns (r: Sql.Answer)
      modifies this
      ensures client == old(client)
      ensures old(client).None? ==> log == old(log) && r == Err(NotConnected)
      ensures old(client).Some? ==> log == old(log) + [Sql.Query(sql, params)] && r == Relayed(answer, QueryFailed)
    {
      var ready := EnsureConnected();
      if ready.Err? {
        r := Err(ready.error);
        return;
      }
      log := log + [Sql.Query(sql, params)];
      r := Relayed(answer, QueryFailed);
    }

    method Execute(sql: string, params: seq<Js.Value>, answer: Sql.Answer) returns (r: Sql.Answer)
      modifies this
      ensures client == old(client)
      ensures old(client).None? ==> log == old(log) && r == Err(NotConnected)
      ensures old(client).Some? ==> log == old(log) + [Sql.Query(sql, params)] && r == Relayed(answer, ExecutionFailed)
    {
      var ready := EnsureConnected();
      if ready.Err? {
        r := Err(ready.error);
        return;
      }
      log := log + [Sql.Query(sql, params)];
      r := Relayed(answer, ExecutionFailed);
    }
  }
}

/** `adapter/SQLiteAdapter.ts`: the `db` field, here the name of the open database file. */
module SqliteAdapter {
  import opened Wrappers
  import opened Text
  import Js
  import Sql
  import opened Adapters

  const ConnectFailed := "Failed to establish a SQLite connection."
  const Suffix := ".sqlite"

  /** `${databasePath()}/${config.database}.sqlite`. */
  function DatabaseFile(databasePath: string, config: Js.Props): (r: string)
    ensures StartsWith(r, databasePath + "/") && EndsWith(r, Suffix)
    ensures |r| == |databasePath| + 1 + |Js.ToText(Js.Lookup(config, "database").GetOr(Js.Undefined))| + |Suffix|
  {
    databasePath + "/" + Js.ToText(Js.Lookup(config, "database").GetOr(Js.Undefined)) + Suffix
  }

  /** The database name can be read back from between the directory and the suffix. */
  lemma DatabaseFileName(databasePath: string, config: Js.Props)
    ensures var r := DatabaseFile(databasePath, config);
      r[|databasePath| + 1..|r| - |Suffix|] == Js.ToText(Js.Lookup(config, "database").GetOr(Js.Undefined))
  {
  }

  class SqliteAdapter {
    const driver: string
    var db: Option<string>
    var log: seq<Sql.Call>

    constructor ()
      ensures driver == "sqlite" && db == None && log == []
    {
      driver := "sqlite";
      db := None;
      log := [];
    }

    /** `databasePath` is what `databasePath()` answers. */
    method Connect(config: Js.Props, databasePath: string, attempt: Attempt) returns (r: Result<()>)
      modifies this
      ensures log == old(log)
      ensures old(db).Some? ==> db == old(db) && r == Ok(())
      ensures old(db).None? && attempt.Opens? ==> db == Some(DatabaseFile(databasePath, config)) && r == Ok(())
      ensures old(db).None? && !attempt.Opens? ==> db == None && r == Err(ConnectFailed)
    {
      if db.Some? {
        r := Ok(());
        return;
      }
      if attempt.Opens? {
        db := Some(DatabaseFile(databasePath, config));
        r := Ok(());
      } else {
        r := Err(ConnectFailed);
      }
    }

    method Disconnect(closing: Result<()>) returns (r: Result<()>)
      modifies this
      ensures db == None && log == old(log) && r == Ok(())
    {
      if db.None? {
        r := Ok(());
        return;
      }
      db := None;
      r := Ok(());
    }

    method EnsureConnected() returns (r: Result<()>)
      ensures r.Ok? <==> db.Some?
      ensures r.Err? ==> r.error == NotConnected
    {
      if db.None? {
        r := Err(NotConnected);
      } else {
        r := Ok(());
      }
    }

    /** `db.query(sql).all(...params)`. */
    method Query(sql: string, params: seq<Js.Value>, answer: Sql.Answer) returns (r: Sql.Answer)
      modifies this
      ensures db == old(db)
      ensures old(db).None? ==> log == old(log) && r == Err(NotConnected)
      ensures old(db).Some? ==> log == old(log) + [Sql.Query(sql, params)] && r == Relayed(answer, QueryFailed)
    {
      var ready := EnsureConnected();
      if ready.Err? {
        r := Err(ready.error);
        return;
      }
      log := log + [Sql.Query(sql, params)];
      r := Relayed(answer, QueryFailed);
    }

    /** `db.query(sql).run(...params)`. */
    method Execute(sql: string, params: seq<Js.Value>, answer: Sql.Answer) returns (r: Sql.Answer)
      modifies this
      ensures db == old(db)
      ensures old(db).None? ==> log == old(log) && r == Err(NotConnected)
      ensures old(db).Some? ==> log == old(log) + [Sql.Execute(sql, params)] && r == Relayed(answer, ExecutionFailed)
    {
      var ready := EnsureConnected();
      if ready.Err? {
        r := Err(ready.error);
        return;
      }
      log := log + [Sql.Execute(sql, params)];
      r := Relayed(answer, ExecutionFailed);
    }
  }
}
