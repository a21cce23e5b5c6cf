/** The two attributes of a Django database connection that the DB recorders of both
    generations change: `force_debug_cursor`, and `ops.last_executed_query`, which a
    recorder wraps so that it sees the SQL of every query. */
module DbConnection {

  /** `connection.ops.last_executed_query`: the database driver's own method, or a
      recorder's wrapper (for connection `alias`) around an earlier one. */
  datatype QueryHook = DriverQuery | Recording(alias: string, inner: QueryHook)

  /** The aliases of the wrappers around the driver's method, innermost first: the order
      in which they see a query. */
  function Aliases(hook: QueryHook): (r: seq<string>)
    ensures hook.DriverQuery? <==> r == []
  {
    match hook
    case DriverQuery => []
    case Recording(alias, inner) => Aliases(inner) + [alias]
  }

  class Connection {
    var forceDebugCursor: bool
    var lastExecutedQuery: QueryHook
  }
}
