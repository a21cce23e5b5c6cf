/** `src/django_perf_rec/db.py`: `DBOp`, the record of one SQL query, and `DBRecorder`,
    which makes a connection report every query it runs. The recorder sets the
    connection's `force_debug_cursor` (so that Django asks the driver for the SQL it
    executed) and wraps `last_executed_query`; leaving the recorder puts both back. */
module PerfRecDb {
  import opened PyBase
  import opened PyStr
  import opened SqlTokens
  import opened DbConnection
  import opened PerfRecOperation
  import PerfRecSql

  /** `DBOp.name`: `db`, then `|` and the alias unless it is `default`. It is computed
      from the alias alone. */
  function Name(alias: string): (r: string)
    ensures alias == "default" ==> r == "db"
    ensures alias != "default" ==> r == "db|" + alias
  {
    var parts := ["db"] + (if alias != "default" then [alias] else []);
    if alias == "default" then
      assert parts == ["db"];
      Join("|", parts)
    else
      assert parts == ["db", alias];
      JoinTwo("|", "db", alias);
      assert "db" + "|" == "db|";
      Join("|", parts)
  }

  /** Different aliases get different names: `default` is the only alias shown as plain
      `db`. */
  lemma NameInjective(a: string, b: string)
    requires Name(a) == Name(b)
    ensures a == b
  {
    if a != "default" && b != "default" {
      assert a == Name(a)[3..];
      assert b == Name(b)[3..];
    }
  }

  /** The query the driver's `last_executed_query` returned, passed through the wrappers
      of `hook` from the innermost out. Each wrapper returns the SQL unchanged and calls
      its callback with `DBOp(alias, sql_fingerprint(sql, hide_columns))`; `parsed` is
      what the SQL parser makes of `sql`, and a fingerprinting error propagates. The
      result is the returned SQL and the operations passed to callbacks, in call order. */
  function Invoke(hook: QueryHook, sql: string, parsed: seq<Token>, hideColumns: bool)
    : (r: Outcome<(string, seq<Operation>)>)
    ensures r.Ok? ==> r.value.0 == sql
    ensures hook.DriverQuery? ==> r == Ok((sql, []))
    ensures hook.Recording? ==> (r.Ok? <==> PerfRecSql.Fingerprint(parsed, hideColumns).Ok?)
    ensures hook.Recording? && r.Raised? ==> r.error == PerfRecSql.Fingerprint(parsed, hideColumns).error
    ensures r.Ok? ==> |r.value.1| == |Aliases(hook)|
    ensures r.Ok? ==> forall i :: 0 <= i < |r.value.1| ==>
      r.value.1[i] == Operation(DBOpClass, Aliases(hook)[i], Text(PerfRecSql.Fingerprint(parsed, hideColumns).value))
  {
    match hook
    case DriverQuery => Ok((sql, []))
    case Recording(alias, inner) =>
      match Invoke(inner, sql, parsed, hideColumns)
      case Raised(e) => Raised(e)
      case Ok((returned, ops)) =>
        match PerfRecSql.Fingerprint(parsed, hideColumns)
        case Raised(e) => Raised(e)
        case Ok(fingerprint) => Ok((returned, ops + [Operation(DBOpClass, alias, Text(fingerprint))]))
  }

  /** One recorder around the driver: the SQL comes back unchanged and exactly one
      `DBOp` is reported, carrying the fingerprint. */
  lemma OneRecorderReportsOneOp(alias: string, sql: string, parsed: seq<Token>, hideColumns: bool)
    requires PerfRecSql.Fingerprint(parsed, hideColumns).Ok?
    ensures Invoke(Recording(alias, DriverQuery), sql, parsed, hideColumns)
      == Ok((sql, [Operation(DBOpClass, alias, Text(PerfRecSql.Fingerprint(parsed, hideColumns).value))]))
  {
    var r := Invoke(Recording(alias, DriverQuery), sql, parsed, hideColumns);
    assert Aliases(Recording(alias, DriverQuery)) == [alias];
    assert |r.value.1| == 1;
    assert r.value.1 == [r.value.1[0]];
  }

  /** `DBRecorder` for one connection alias. */
  class DBRecorder {
    const alias: string
    var origForceDebugCursor: bool
    var origLastExecutedQuery: QueryHook

    constructor (alias: string)
      ensures this.alias == alias
    {
      this.alias := alias;
    }

    /** `__enter__`: remembers the connection's flag and method, sets the flag, and wraps
      the method. `conn` is `connections[self.alias]`. */
    method Enter(conn: Connection)
      modifies this, conn
      ensures origForceDebugCursor == old(conn.forceDebugCursor)
      ensures origLastExecutedQuery == old(conn.lastExecutedQuery)
      ensures conn.forceDebugCursor
      ensures conn.lastExecutedQuery == Recording(alias, old(conn.lastExecutedQuery))
    {
      origForceDebugCursor := conn.forceDebugCursor;
      conn.forceDebugCursor := true;
      origLastExecutedQuery := conn.lastExecutedQuery;
      conn.lastExecutedQuery := Recording(alias, conn.lastExecutedQuery);
    }

    /** `__exit__`: puts back the flag and the method remembered on entry. */
    method Exit(conn: Connection)
      modifies conn
      ensures conn.forceDebugCursor == origForceDebugCursor
      ensures conn.lastExecutedQuery == origLastExecutedQuery
    {
      conn.forceDebugCursor := origForceDebugCursor;
      conn.lastExecutedQuery := origLastExecutedQuery;
    }
  }

  /** A `with DBRecorder(alias, callback):` block: inside it the connection has the flag
      set and reports queries to the recorder; afterwards it is exactly as before. */
  method RecordBlock(alias: string, conn: Connection) returns (inside: bool, insideHook: QueryHook)
    modifies conn
    ensures inside && insideHook == Recording(alias, old(conn.lastExecutedQuery))
    ensures conn.forceDebugCursor == old(conn.forceDebugCursor)
    ensures conn.lastExecutedQuery == old(conn.lastExecutedQuery)
  {
    var recorder := new DBRecorder(alias);
    recorder.Enter(conn);
    inside, insideHook := conn.forceDebugCursor, conn.lastExecutedQuery;
    recorder.Exit(conn);
  }
}
