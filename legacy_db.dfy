/** `django_perf_rec/db.py`, the older generation: `DBOp` is its own value class with
    `alias` and `sql`; `DBRecorder.__exit__` clears `force_debug_cursor` instead of
    restoring it; and `AllDBRecorder` enters one recorder per configured database, in
    `sorted_names` order, and leaves them in the reverse order. */
module LegacyDb {
  import opened PyBase
  import opened PySorted
  import opened SqlTokens
  import opened DbConnection
  import opened NameOrder
  import LegacySql

  datatype DBOp = DBOp(alias: string, sql: string)

  /** The right operand of `==`: a `DBOp`, or any other object. */
  datatype Operand = DBOpValue(op: DBOp) | OtherObject

  /** `DBOp.__eq__(self, other)`: `other` is a `DBOp` with the same alias and SQL. */
  function Equals(self: DBOp, other: Operand): (b: bool)
    ensures b <==> other == DBOpValue(self)
  {
    other.DBOpValue? && self.alias == other.op.alias && self.sql == other.op.sql
  }

  /** An attribute of this generation's `perf_rec_settings`: the object defines only the
      `MODE` property (whose value, read from `settings.PERF_REC` with the default
      `once`, is `mode` here); any other name raises `AttributeError`. */
  function SettingsAttribute(mode: string, name: string): (r: Outcome<string>)
    ensures r.Ok? <==> name == "MODE"
    ensures r.Ok? ==> r.value == mode
    ensures r.Raised? ==> r.error == AttributeError
  {
    if name == "MODE" then Ok(mode) else Raised(AttributeError)
  }

  /** The recording wrapper as this generation's files have it: after the driver returns
      the SQL, it looks up `perf_rec_settings.HIDE_COLUMNS`, whose failure propagates;
      were the lookup to succeed, `sql_fingerprint(sql, hide_columns=...)` would raise
      `TypeError`, since this generation's `sql_fingerprint` takes only the query. */
  function InvokeAsWritten(hook: QueryHook, sql: string, mode: string): (r: Outcome<(string, seq<DBOp>)>)
    ensures hook.DriverQuery? ==> r == Ok((sql, []))
  {
    match hook
    case DriverQuery => Ok((sql, []))
    case Recording(_, inner) =>
      match InvokeAsWritten(inner, sql, mode)
      case Raised(e) => Raised(e)
      case Ok(_) =>
        match SettingsAttribute(mode, "HIDE_COLUMNS")
        case Raised(e) => Raised(e)
        case Ok(_) => Raised(TypeError)
  }

  /** As written, a query on a connection with a recorder installed always fails. */
  lemma {:induction false} AsWrittenRecordingRaises(alias: string, inner: QueryHook, sql: string, mode: string)
    ensures InvokeAsWritten(Recording(alias, inner), sql, mode) == Raised(AttributeError)
    decreases inner
  {
    if inner.Recording? {
      AsWrittenRecordingRaises(inner.alias, inner.inner, sql, mode);
    }
  }

  /** The wrapper as intended: it returns the SQL unchanged and calls its callback with
      `DBOp(alias, sql_fingerprint(sql))`, where `parsed` is what the SQL parser makes of
      `sql` and a fingerprinting error propagates. The result is the returned SQL and the
      operations passed to callbacks, innermost wrapper first. */
  function Invoke(hook: QueryHook, sql: string, parsed: seq<Token>): (r: Outcome<(string, seq<DBOp>)>)
    ensures r.Ok? ==> r.value.0 == sql
    ensures hook.DriverQuery? ==> r == Ok((sql, []))
    ensures hook.Recording? ==> (r.Ok? <==> LegacySql.Fingerprint(parsed).Ok?)
    ensures r.Ok? ==> |r.value.1| == |Aliases(hook)|
    ensures r.Ok? ==> forall i :: 0 <= i < |r.value.1| ==>
      r.value.1[i] == DBOp(Aliases(hook)[i], LegacySql.Fingerprint(parsed).value)
  {
    match hook
    case DriverQuery => Ok((sql, []))
    case Recording(alias, inner) =>
      match Invoke(inner, sql, parsed)
      case Raised(e) => Raised(e)
      case Ok((returned, ops)) =>
        match LegacySql.Fingerprint(parsed)
        case Raised(e) => Raised(e)
        case Ok(fingerprint) => Ok((returned, ops + [DBOp(alias, fingerprint)]))
  }

  /** `DBRecorder` for one connection alias. */
  class DBRecorder {
    const alias: string
    var origForceDebugCursor: bool
    var origLastExecutedQuery: QueryHook

    constructor (alias: string)
      ensures this.alias == alias
    {
      this.alias := alias;
    }

    /** `__enter__`: remembers the flag and the method, sets the flag and wraps the
        method. `conn` is `connections[self.alias]`. */
    method Enter(conn: Connection)
      modifies this, conn
      ensures origForceDebugCursor == old(conn.forceDebugCursor)
      ensures origLastExecutedQuery == old(conn.lastExecutedQuery)
      ensures conn.forceDebugCursor
      ensures conn.lastExecutedQuery == Recording(alias, old(conn.lastExecutedQuery))
    {
      origForceDebugCursor := conn.forceDebugCursor;
      conn.forceDebugCursor := true;
      origLastExecutedQuery := conn.lastExecutedQuery;
      conn.lastExecutedQuery := Recording(alias, conn.lastExecutedQuery);
    }

    /** `__exit__`: puts the method back, but sets the flag to `False` whatever it was
        before. */
    method Exit(conn: Connection)
      modifies conn
      ensures !conn.forceDebugCursor
      ensures conn.lastExecutedQuery == origLastExecutedQuery
    {
      conn.forceDebugCursor := false;
      conn.lastExecutedQuery := origLastExecutedQuery;
    }
  }

  /** The steps `AllDBRecorder` takes, in order, for the ghost log below. */
  datatype Step = Entered(alias: string) | Exited(alias: string)

  /** Distinct aliases have distinct connections, as Django's `connections` gives. */
  ghost predicate OneConnectionPerAlias(conns: map<string, Connection>)
  {
    forall a, b :: a in conns && b in conns && a != b ==> conns[a] != conns[b]
  }

  /** The aliases of `recorders`, in order. */
  function AliasesOf(recorders: seq<DBRecorder>): (r: seq<string>)
    ensures |r| == |recorders|
    ensures forall i :: 0 <= i < |r| ==> r[i] == recorders[i].alias
  {
    seq(|recorders|, i requires 0 <= i < |recorders| => recorders[i].alias)
  }

  /** The log of entering recorders for `names`, in that order. */
  function EnterSteps(names: seq<string>): (r: seq<Step>)
    ensures |r| == |names|
    ensures forall i :: 0 <= i < |r| ==> r[i] == Entered(names[i])
  {
    seq(|names|, i requires 0 <= i < |names| => Entered(names[i]))
  }

  /** The log of leaving the recorders for `names`: the last one first. */
  function ExitSteps(names: seq<string>): (r: seq<Step>)
    ensures |r| == |names|
    ensures forall i :: 0 <= i < |r| ==> r[i] == Exited(names[|names| - 1 - i])
  {
    seq(|names|, i requires 0 <= i < |names| => Exited(names[|names| - 1 - i]))
  }

  /** The log of a whole block brackets its recorders: the `k`th recorder entered is the
      `k`th from the end to be left, so recorders are left last in, first out. */
  lemma BlockLogIsNested(names: seq<string>)
    ensures var log := EnterSteps(names) + ExitSteps(names);
      |log| == 2 * |names|
      && forall k :: 0 <= k < |names| ==>
        log[k] == Entered(names[k]) && log[2 * |names| - 1 - k] == Exited(names[k])
  {
    var log := EnterSteps(names) + ExitSteps(names);
    forall k | 0 <= k < |names|
      ensures log[2 * |names| - 1 - k] == Exited(names[k])
    {
      var e := |names| - 1 - k;
      assert log[|names| + e] == ExitSteps(names)[e];
    }
  }

  /** `AllDBRecorder`. `log` is a ghost record of the order in which recorders are
      entered and left; the class itself keeps only `recorders`. */
  class AllDBRecorder {
    var recorders: seq<DBRecorder>
    ghost var log: seq<Step>

    /** `__enter__`: one recorder per database alias, in `sorted_names` order. `aliases`
        is `settings.DATABASES.keys()`. */
    method Enter(aliases: seq<string>, conns: map<string, Connection>)
      requires Distinct(aliases)
      requires forall a :: a in conns <==> a in aliases
      requires OneConnectionPerAlias(conns)
      modifies this, conns.Values
      ensures AliasesOf(recorders) == DefaultFirst(aliases)
      ensures Distinct(AliasesOf(recorders))
      ensures forall a :: a in aliases ==> a in AliasesOf(recorders)
      ensures forall i :: 0 <= i < |recorders| ==> recorders[i].alias in aliases && fresh(recorders[i])
      ensures forall i :: 0 <= i < |recorders| ==>
        (var conn := conns[recorders[i].alias];
         recorders[i].origForceDebugCursor == old(conn.forceDebugCursor)
         && recorders[i].origLastExecutedQuery == old(conn.lastExecutedQuery)
         && conn.forceDebugCursor
         && conn.lastExecutedQuery == Recording(recorders[i].alias, old(conn.lastExecutedQuery)))
      ensures log == old(log) + EnterSteps(DefaultFirst(aliases))
    {
      var names := SortedNames(aliases);
      DefaultFirstIsPermutation(aliases);
      PermutationKeepsDistinct(aliases, names);
      forall k | 0 <= k < |names| ensures names[k] in aliases {
        assert names[k] in multiset(aliases);
      }
      forall a | a in aliases ensures a in names {
        assert a in multiset(names);
      }
      EnterInOrder(names, conns);
    }

    /** The loop of `__enter__`: a new recorder for each name in turn, entered on that
        name's connection. */
    method EnterInOrder(names: seq<string>, conns: map<string, Connection>)
      requires Distinct(names)
      requires forall j :: 0 <= j < |names| ==> names[j] in conns
      requires OneConnectionPerAlias(conns)
      modifies this, conns.Values
      ensures AliasesOf(recorders) == names
      ensures forall j :: 0 <= j < |recorders| ==> fresh(recorders[j])
      ensures forall j :: 0 <= j < |names| ==>
        (var conn := conns[names[j]];
         recorders[j].origForceDebugCursor == old(conn.forceDebugCursor)
         && recorders[j].origLastExecutedQuery == old(conn.lastExecutedQuery)
         && conn.forceDebugCursor
         && conn.lastExecutedQuery == Recording(names[j], old(conn.lastExecutedQuery)))
      ensures log == old(log) + EnterSteps(names)
    {
      recorders := [];
      for i := 0 to |names|
        invariant |recorders| == i
        invariant forall j :: 0 <= j < i ==> recorders[j].alias == names[j] && fresh(recorders[j])
        invariant forall j :: 0 <= j < i ==>
          (var conn := conns[names[j]];
           recorders[j].origForceDebugCursor == old(conn.forceDebugCursor)
           && recorders[j].origLastExecutedQuery == old(conn.lastExecutedQuery)
           && conn.forceDebugCursor
           && conn.lastExecutedQuery == Recording(names[j], old(conn.lastExecutedQuery)))
        invariant forall j :: i <= j < |names| ==>
          conns[names[j]].forceDebugCursor == old(conns[names[j]].forceDebugCursor)
          && conns[names[j]].lastExecutedQuery == old(conns[names[j]].lastExecutedQuery)
        invariant log == old(log) + EnterSteps(names[..i])
      {
        var conn := conns[names[i]];
        forall j | 0 <= j < |names| && j != i ensures conns[names[j]] != conn {
          assert names[j] != names[i];
        }
        var recorder := new DBRecorder(names[i]);
        recorder.Enter(conn);
        recorders := recorders + [recorder];
        log := log + [Entered(names[i])];
        assert EnterSteps(names[..i + 1]) == EnterSteps(names[..i]) + [Entered(names[i])];
      }
      assert names[..|names|] == names;
    }

    /** `__exit__`: leaves the recorders in the reverse of the order they were entered,
        then forgets them. Every recorder's connection ends with the flag cleared and its
        own method back; a connection no recorder holds is left as it was. */
    method Exit(conns: map<string, Connection>)
      requires forall i :: 0 <= i < |recorders| ==> recorders[i].alias in conns
      requires Distinct(AliasesOf(recorders))
      requires OneConnectionPerAlias(conns)
      modifies this, conns.Values
      ensures recorders == []
      ensures forall i :: 0 <= i < |old(recorders)| ==>
        !conns[old(recorders)[i].alias].forceDebugCursor
        && conns[old(recorders)[i].alias].lastExecutedQuery == old(recorders[i].origLastExecutedQuery)
      ensures forall a :: a in conns && a !in AliasesOf(old(recorders)) ==>
        conns[a].forceDebugCursor == old(conns[a].forceDebugCursor)
        && conns[a].lastExecutedQuery == old(conns[a].lastExecutedQuery)
      ensures log == old(log) + ExitSteps(AliasesOf(old(recorders)))
    {
      var rs := recorders;
      ghost var held := set j | 0 <= j < |rs| :: conns[rs[j].alias];
      var k := |rs|;
      while k > 0
        invariant 0 <= k <= |rs|
        invariant forall j :: k <= j < |rs| ==>
          !conns[rs[j].alias].forceDebugCursor
          && conns[rs[j].alias].lastExecutedQuery == rs[j].origLastExecutedQuery
        invariant log == old(log) + ExitSteps(AliasesOf(rs[k..]))
        modifies this, held
      {
        k := k - 1;
        assert conns[rs[k].alias] in held;
        rs[k].Exit(conns[rs[k].alias]);
        log := log + [Exited(rs[k].alias)];
      }
      recorders := [];
      forall a | a in conns && a !in AliasesOf(rs) ensures conns[a] !in held {
        forall j | 0 <= j < |rs| ensures conns[a] != conns[rs[j].alias] {
          assert AliasesOf(rs)[j] == rs[j].alias;
        }
      }
    }
  }

  /** A `with AllDBRecorder(callback):` block: afterwards every connection has its own
      method back but `force_debug_cursor` cleared, and the recorders were left in the
      reverse of the order they were entered. */
  method RecordAllBlock(aliases: seq<string>, conns: map<string, Connection>)
    returns (ghost log: seq<Step>)
    requires Distinct(aliases)
    requires forall a :: a in conns <==> a in aliases
    requires OneConnectionPerAlias(conns)
    modifies conns.Values
    ensures forall a :: a in aliases ==>
      !conns[a].forceDebugCursor && conns[a].lastExecutedQuery == old(conns[a].lastExecutedQuery)
    ensures log == EnterSteps(DefaultFirst(aliases)) + ExitSteps(DefaultFirst(aliases))
  {
    var all := new AllDBRecorder;
    all.recorders, all.log := [], [];
    all.Enter(aliases, conns);
    ghost var rs := all.recorders;
    ghost var names := AliasesOf(rs);
    forall a | a in aliases
      ensures a in names && rs[FirstIndex(names, a)].origLastExecutedQuery == old(conns[a].lastExecutedQuery)
    {
    }
    all.Exit(conns);
    log := all.log;
    forall a | a in aliases
      ensures !conns[a].forceDebugCursor && conns[a].lastExecutedQuery == old(conns[a].lastExecutedQuery)
    {
      var i := FirstIndex(names, a);
      assert rs[i].alias == a;
    }
  }
}
