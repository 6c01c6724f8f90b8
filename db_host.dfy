/**
 * `getDbHost` from pages/api/balances.ts: the host (or Unix socket directory)
 * the balance report connects to, derived from the `SQL_CONN` environment variable.
 * The variable is a parameter: `None` when it is unset.
 */
module DbHost {
  import opened Wrappers
  import opened JsText

  /** The directory under which the Cloud SQL proxy publishes its sockets. */
  const CloudSqlPrefix: string := "/cloudsql/"

  /**
   * The host for `sqlConn`: the trimmed value, or "localhost" when unset;
   * a value that starts with "/" is a socket path and is kept; a value with a ':'
   * (an instance connection name) is placed under "/cloudsql/"; anything else is kept.
   */
  function GetDbHost(sqlConn: Option<string>): (host: string)
    ensures sqlConn.None? ==> host == "localhost"
    ensures Trimmed(host)
    ensures StartsWith(host, "/") || ':' !in host
  {
    LocalhostTrimmed();
    var conn := match sqlConn
      case Some(raw) => Trim(raw)
      case None => "localhost";
    if StartsWith(conn, "/") || StartsWith(conn, "/cloudsql") then conn
    else if ':' in conn then
      PrefixedKeepsShape(conn);
      CloudSqlPrefix + conn
    else conn
  }

  lemma LocalhostTrimmed()
    ensures Trimmed("localhost") && ':' !in "localhost"
  {
    assert "localhost"[0] == 'l' && "localhost"[8] == 't';
  }

  /** Placing a non-empty trimmed value under "/cloudsql/" gives a trimmed socket path. */
  lemma PrefixedKeepsShape(conn: string)
    requires Trimmed(conn) && conn != []
    ensures Trimmed(CloudSqlPrefix + conn) && StartsWith(CloudSqlPrefix + conn, "/")
  {
    var p := CloudSqlPrefix + conn;
    assert p[0] == '/' && p[..1] == "/";
    assert p[|p| - 1] == conn[|conn| - 1];
  }

  /** The three cases of the rule, stated on the trimmed value of a set variable. */
  lemma GetDbHostCases(raw: string)
    ensures var conn := Trim(raw);
      (StartsWith(conn, "/") ==> GetDbHost(Some(raw)) == conn) &&
      (!StartsWith(conn, "/") && ':' in conn ==> GetDbHost(Some(raw)) == CloudSqlPrefix + conn) &&
      (!StartsWith(conn, "/") && ':' !in conn ==> GetDbHost(Some(raw)) == conn)
  {
    var conn := Trim(raw);
    if StartsWith(conn, "/cloudsql") {
      CloudSqlTestRedundant(conn);
    }
    assert GetDbHost(Some(raw)) ==
      if StartsWith(conn, "/") then conn else if ':' in conn then CloudSqlPrefix + conn else conn;
  }

  /** Prefixing is the only change made to the trimmed value, and it happens exactly for the ':' case. */
  lemma GetDbHostChangesOnlyColonValues(raw: string)
    ensures var conn := Trim(raw);
      GetDbHost(Some(raw)) != conn <==> (!StartsWith(conn, "/") && ':' in conn)
  {
    GetDbHostCases(raw);
    var conn := Trim(raw);
    if !StartsWith(conn, "/") && ':' in conn {
      assert |CloudSqlPrefix + conn| != |conn|;
    }
  }

  /** The `startsWith('/cloudsql')` test adds nothing: every value starting with "/cloudsql" starts with "/". */
  lemma CloudSqlTestRedundant(conn: string)
    requires StartsWith(conn, "/cloudsql")
    ensures StartsWith(conn, "/")
  {
    assert conn[..1] == "/cloudsql"[..1];
  }

  /** A variable that is set but blank yields the empty host, not "localhost". */
  lemma BlankVariableGivesEmptyHost(raw: string)
    requires forall k :: 0 <= k < |raw| ==> IsTrimmable(raw[k])
    ensures GetDbHost(Some(raw)) == ""
  {
    TrimIsSlice(raw);
    TrimDropsTrimmable(raw);
  }

  /** Feeding a resolved host back in as the variable resolves to the same host. */
  lemma GetDbHostIdempotent(sqlConn: Option<string>)
    ensures GetDbHost(Some(GetDbHost(sqlConn))) == GetDbHost(sqlConn)
  {
    var host := GetDbHost(sqlConn);
    TrimKeepsTrimmed(host);
    GetDbHostCases(host);
  }
}
