/**
 * The Snowflake adapter's operations on a connection: catalog listings, the column listing with
 * primary-key flags, and query execution. Each operation opens a fresh cursor, runs its statements
 * on it in order and stops at the first error the backend raises.
 */
module SnowflakeAdapter {
  import opened Outcomes
  import opened Driver
  import opened CatalogSql
  import opened Results

  /** The normalised result of `execute_query`. */
  datatype QueryResult = QueryResult(columns: seq<string>, rows: seq<Row>, truncated: bool)

  /** `[col[0] for col in cursor.description]` when the description is non-empty, else `[]`. */
  function ColumnNames(description: Option<seq<ColumnDesc>>): (names: seq<string>)
    ensures description.None? || description.value == [] ==> names == []
    ensures description.Some? ==>
      |names| == |description.value| && forall i :: 0 <= i < |names| ==> names[i] == description.value[i].name
  {
    if description.None? then []
    else seq(|description.value|, i requires 0 <= i < |description.value| => description.value[i].name)
  }

  /**
   * What `execute_query` returns for the backend's reply: with a row limit `k`, the first `k` rows
   * and `truncated` exactly when more than `k` rows were available; without one, every row.
   */
  function QueryOutcome(reply: Reply, maxRows: Option<nat>): (r: Result<QueryResult, Error>)
    ensures reply.Raised? <==> r.Failure?
    ensures reply.Raised? ==> r.error == QueryFailure(reply.message)
    ensures reply.Answer? ==> r.value.columns == ColumnNames(reply.description)
    ensures reply.Answer? && maxRows.Some? ==>
      |r.value.rows| <= maxRows.value &&
      r.value.rows <= reply.rows &&
      (r.value.truncated <==> |reply.rows| > maxRows.value) &&
      (!r.value.truncated ==> r.value.rows == reply.rows) &&
      (r.value.truncated ==> r.value.rows == reply.rows[..maxRows.value])
    ensures reply.Answer? && maxRows.None? ==> r.value.rows == reply.rows && !r.value.truncated
  {
    match reply
    case Raised(message) => Failure(QueryFailure(message))
    case Answer(description, rows, _) =>
      var columns := ColumnNames(description);
      match maxRows
      case None => Success(QueryResult(columns, rows, false))
      case Some(k) =>
        var fetched := if k + 1 < |rows| then rows[..k + 1] else rows;
        var truncated := |fetched| > k;
        Success(QueryResult(columns, if truncated then fetched[..k] else fetched, truncated))
  }

  /** `execute_query`: runs `query` and reads at most `max_rows + 1` rows when a limit is given. */
  method ExecuteQuery(conn: Connection, query: string, maxRows: Option<nat>) returns (r: Result<QueryResult, Error>)
    ensures r == QueryOutcome(conn.respond(Statement(query, None)), maxRows)
  {
    var cursor := conn.NewCursor();
    var err := cursor.Execute(query, None);
    if err.Some? {
      return Failure(err.value);
    }
    var columns := [];
    if cursor.description.Some? && cursor.description.value != [] {
      columns := ColumnNames(cursor.description);
    }
    var rows, truncated;
    ghost var all := cursor.Remaining();
    if maxRows.Some? {
      rows := cursor.FetchMany(maxRows.value + 1);
      assert rows == if maxRows.value + 1 < |all| then all[..maxRows.value + 1] else all;
      truncated := |rows| > maxRows.value;
      if truncated {
        rows := rows[..maxRows.value];
      }
    } else {
      rows := cursor.FetchAll();
      truncated := false;
    }
    r := Success(QueryResult(columns, rows, truncated));
  }

  /**
   * `execute_non_query`: the backend's affected-row count, or -1 when it reports none; a missing
   * count is never an error.
   */
  method ExecuteNonQuery(conn: Connection, query: string) returns (r: Result<int, Error>)
    ensures var reply := conn.respond(Statement(query, None));
      (reply.Raised? ==> r == Failure(QueryFailure(reply.message))) &&
      (reply.Answer? && reply.rowcount.Some? ==> r == Success(reply.rowcount.value)) &&
      (reply.Answer? && reply.rowcount.None? ==> r == Success(-1))
  {
    var cursor := conn.NewCursor();
    var err := cursor.Execute(query, None);
    if err.Some? {
      return Failure(err.value);
    }
    r := Success(if cursor.rowcount.Some? then cursor.rowcount.value else -1);
  }

  /** `get_databases`: the name column (index 1) of every `SHOW DATABASES` row. */
  method GetDatabases(conn: Connection) returns (r: Result<seq<string>, Error>)
    ensures var reply := conn.respond(Statement("SHOW DATABASES", None));
      (reply.Raised? ==> r == Failure(QueryFailure(reply.message))) &&
      (reply.Answer? ==> r == Cells(reply.rows, 1))
  {
    var cursor := conn.NewCursor();
    var err := cursor.Execute("SHOW DATABASES", None);
    if err.Some? {
      return Failure(err.value);
    }
    var rows := cursor.FetchAll();
    r := Cells(rows, 1);
  }

  /** `get_tables_via_info_schema`: one (schema, name) pair per row of the base-table query. */
  method GetTablesViaInfoSchema(conn: Connection, database: Option<string>) returns (r: Result<seq<TableInfo>, Error>)
    ensures var reply := conn.respond(TablesStatement(database));
      (reply.Raised? ==> r == Failure(QueryFailure(reply.message))) &&
      (reply.Answer? ==> r == Tables(reply.rows))
  {
    var cursor := conn.NewCursor();
    var st := TablesStatement(database);
    var err := cursor.Execute(st.sql, st.params);
    if err.Some? {
      return Failure(err.value);
    }
    var rows := cursor.FetchAll();
    r := Tables(rows);
  }

  /** `get_tables`: the information-schema listing of base tables. */
  method GetTables(conn: Connection, database: Option<string>) returns (r: Result<seq<TableInfo>, Error>)
    ensures var reply := conn.respond(TablesStatement(database));
      (reply.Raised? ==> r == Failure(QueryFailure(reply.message))) &&
      (reply.Answer? ==> r == Tables(reply.rows))
  {
    r := GetTablesViaInfoSchema(conn, database);
  }

  /**
   * `get_views`: runs `SHOW VIEWS` (whose rows are not read, but whose failure is raised), then
   * lists one (schema, name) pair per row of the information-schema view query.
   */
  method GetViews(conn: Connection, database: Option<string>) returns (r: Result<seq<TableInfo>, Error>)
    ensures var show := conn.respond(ShowViewsStatement(database));
      var reply := conn.respond(ViewsStatement(database));
      (show.Raised? ==> r == Failure(QueryFailure(show.message))) &&
      (show.Answer? && reply.Raised? ==> r == Failure(QueryFailure(reply.message))) &&
      (show.Answer? && reply.Answer? ==> r == Tables(reply.rows))
  {
    var cursor := conn.NewCursor();
    var show := ShowViewsStatement(database);
    var err := cursor.Execute(show.sql, show.params);
    if err.Some? {
      return Failure(err.value);
    }
    var st := ViewsStatement(database);
    err := cursor.Execute(st.sql, st.params);
    if err.Some? {
      return Failure(err.value);
    }
    var rows := cursor.FetchAll();
    r := Tables(rows);
  }

  /**
   * `get_columns`: fetches the columns, then runs the key query on the same cursor, then tags every
   * column by whether the key query named it.
   */
  method GetColumns(conn: Connection, table: string, database: Option<string>, schema: Option<string>)
    returns (r: Result<seq<ColumnInfo>, Error>)
    ensures var columns := conn.respond(ColumnsStatement(table, database, schema));
      var keys := conn.respond(PkStatement(table, database, schema));
      (columns.Raised? ==> r == Failure(QueryFailure(columns.message))) &&
      (columns.Answer? && keys.Raised? ==> r == Failure(QueryFailure(keys.message))) &&
      (columns.Answer? && keys.Answer? ==> r == MergePrimaryKeys(columns.rows, keys.rows))
  {
    var cursor := conn.NewCursor();
    var st := ColumnsStatement(table, database, schema);
    var err := cursor.Execute(st.sql, st.params);
    if err.Some? {
      return Failure(err.value);
    }
    var rows := cursor.FetchAll();
    var pk := PkStatement(table, database, schema);
    err := cursor.Execute(pk.sql, pk.params);
    if err.Some? {
      return Failure(err.value);
    }
    var keyRows := cursor.FetchAll();
    r := MergePrimaryKeys(rows, keyRows);
  }

  /** `get_procedures`: the distinct routine names, sorted. */
  method GetProcedures(conn: Connection, database: Option<string>) returns (r: Result<seq<string>, Error>)
    ensures var reply := conn.respond(ProceduresStatement(database));
      (reply.Raised? ==> r == Failure(QueryFailure(reply.message))) &&
      (reply.Answer? ==> r == ProcedureNames(reply.rows))
  {
    var cursor := conn.NewCursor();
    var st := ProceduresStatement(database);
    var err := cursor.Execute(st.sql, st.params);
    if err.Some? {
      return Failure(err.value);
    }
    var rows := cursor.FetchAll();
    r := ProcedureNames(rows);
  }

  /** `get_sequences`: one SequenceInfo per row of the sequence query. */
  method GetSequences(conn: Connection, database: Option<string>) returns (r: Result<seq<SequenceInfo>, Error>)
    ensures var reply := conn.respond(SequencesStatement(database));
      (reply.Raised? ==> r == Failure(QueryFailure(reply.message))) &&
      (reply.Answer? ==> r == Sequences(reply.rows))
  {
    var cursor := conn.NewCursor();
    var st := SequencesStatement(database);
    var err := cursor.Execute(st.sql, st.params);
    if err.Some? {
      return Failure(err.value);
    }
    var rows := cursor.FetchAll();
    r := Sequences(rows);
  }

  /** `get_indexes`: Snowflake has no indexes, so the answer is always empty and sends no query. */
  function GetIndexes(conn: Connection, database: Option<string>): (r: seq<IndexInfo>)
    ensures r == []
  {
    []
  }

  /** `get_triggers`: Snowflake has no triggers, so the answer is always empty and sends no query. */
  function GetTriggers(conn: Connection, database: Option<string>): (r: seq<TriggerInfo>)
    ensures r == []
  {
    []
  }
}
