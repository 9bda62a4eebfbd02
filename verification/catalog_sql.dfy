/**
 * The information-schema queries the adapter sends. A query scoped to a database names it once
 * as a quoted identifier followed by `.`; `ScopeOf` reads that identifier back, so the lemmas
 * here say which database a query addresses, whatever characters its name contains.
 */
module CatalogSql {
  import opened Outcomes
  import opened Quoting
  import opened Driver
  import Capabilities

  /** `f"{quote_identifier(database)}." if database else ""`. */
  function DbPrefix(database: Option<string>): string {
    if Truthy(database) then QuoteIdentifier(database.value) + "." else ""
  }

  /** The database a query should address: none when the argument is None or empty. */
  function Scope(database: Option<string>): Option<string> {
    if Truthy(database) then Some(database.value) else None
  }

  /** Reads a leading `"<db>".` qualifier, if there is one. */
  function ScopeOf(s: string): Option<string> {
    match ParseDelimited(s)
    case Some((db, rest)) => if rest != [] && rest[0] == '.' then Some(db) else None
    case None => None
  }

  /** The text after a leading `"<db>".` qualifier, or all of `s` when there is none. */
  function AfterScope(s: string): string {
    match ParseDelimited(s)
    case Some((db, rest)) => if rest != [] && rest[0] == '.' then rest[1..] else s
    case None => s
  }

  /** `s` starts with `information_schema.<view>`, followed by a space or a line break. */
  predicate NamesView(s: string, view: string) {
    var v := InfoSchema + view;
    |v| < |s| && s[..|v|] == v && (s[|v|] == ' ' || s[|v|] == '\n')
  }

  /**
   * `sql` starts with `head` and then reads the information-schema view `view` of exactly the
   * catalog of `database`: under its quoted name when one is given, unqualified otherwise.
   */
  predicate TargetsCatalog(sql: string, head: string, database: Option<string>, view: string) {
    |head| <= |sql| && sql[..|head|] == head &&
    ScopeOf(sql[|head|..]) == Scope(database) && NamesView(AfterScope(sql[|head|..]), view)
  }

  /** `part` occurs in `s` at position `i`. */
  predicate OccursAt(s: string, part: string, i: nat) {
    i + |part| <= |s| && s[i..i + |part|] == part
  }

  ghost predicate Contains(s: string, part: string) {
    exists i: nat | i <= |s| :: OccursAt(s, part, i)
  }

  predicate EndsWith(s: string, suffix: string) {
    |suffix| <= |s| && s[|s| - |suffix|..] == suffix
  }

  /** The filter that keeps the information schema's own namespace out of a listing. */
  function Excluding(column: string): string {
    column + " != 'INFORMATION_SCHEMA'"
  }

  const InfoSchema := "information_schema."

  /** Rewriting step: one unfolding of `ScopeOf` and `AfterScope` at a `"<db>".` qualifier. */
  lemma ScopeAtQualifier(s: string, db: string, rest: string)
    requires ParseDelimited(s) == Some((db, rest)) && rest != [] && rest[0] == '.'
    ensures ScopeOf(s) == Some(db) && AfterScope(s) == rest[1..]
  {
  }

  /** Rewriting step: text not starting with a quote has no qualifier. */
  lemma ScopeWithoutQualifier(s: string)
    requires s != [] && s[0] != Dq
    ensures ScopeOf(s) == None && AfterScope(s) == s
  {
  }

  lemma PrefixScope(database: Option<string>, tail: string)
    requires tail != [] && tail[0] != Dq
    ensures ScopeOf(DbPrefix(database) + tail) == Scope(database)
    ensures AfterScope(DbPrefix(database) + tail) == tail
  {
    var s := DbPrefix(database) + tail;
    if Truthy(database) {
      var rest := ['.'] + tail;
      assert s == QuoteIdentifier(database.value) + rest;
      QuotedIdentifierParses(database.value, rest);
      ScopeAtQualifier(s, database.value, rest);
      assert rest[1..] == tail;
    } else {
      assert s == tail;
      ScopeWithoutQualifier(s);
    }
  }

  /** Rewriting step: `information_schema.<view>` followed by a separator names `view`. */
  lemma ViewNamed(view: string, rest: string)
    requires rest != [] && (rest[0] == ' ' || rest[0] == '\n')
    ensures NamesView(InfoSchema + view + rest, view)
  {
    var v := InfoSchema + view;
    var t := v + rest;
    assert t[..|v|] == v;
    assert t[|v|] == rest[0];
  }

  /** Rewriting step: `TargetsCatalog` unfolded once `head` has been split off. */
  lemma TargetsAfterHead(sql: string, head: string, rest: string, database: Option<string>, view: string)
    requires sql == head + rest
    requires ScopeOf(rest) == Scope(database) && NamesView(AfterScope(rest), view)
    ensures TargetsCatalog(sql, head, database, view)
  {
    assert sql[..|head|] == head;
    assert sql[|head|..] == rest;
  }

  /** Rewriting step: regrouping a concatenation of five pieces. */
  lemma Regroup(a: string, b: string, c: string, d: string, e: string)
    ensures a + b + c + d + e == a + (b + (c + d + e))
  {
  }

  /** Rewriting step: regrouping a concatenation of six pieces. */
  lemma RegroupTail(a: string, b: string, c: string, d: string, e: string, f: string)
    ensures a + b + c + d + e + f == a + (b + c + d + e + f)
  {
  }

  /** `head`, then the catalog qualifier, then `information_schema.<view>` and the rest. */
  lemma CatalogQueryScope(head: string, database: Option<string>, view: string, rest: string)
    requires rest != [] && (rest[0] == ' ' || rest[0] == '\n')
    ensures TargetsCatalog(head + DbPrefix(database) + InfoSchema + view + rest, head, database, view)
  {
    var p := DbPrefix(database);
    var t := InfoSchema + view + rest;
    var sql := head + p + InfoSchema + view + rest;
    Regroup(head, p, InfoSchema, view, rest);
    assert t[0] == InfoSchema[0] == 'i';
    PrefixScope(database, t);
    ViewNamed(view, rest);
    TargetsAfterHead(sql, head, p + t, database, view);
  }

  lemma ContainsMiddle(front: string, part: string, back: string)
    ensures Contains(front + part + back, part)
  {
    assert OccursAt(front + part + back, part, |front|);
  }

  lemma ContainsEnd(front: string, part: string)
    ensures Contains(front + part, part)
  {
    assert OccursAt(front + part, part, |front|);
  }

  /** What occurs in a part of `s` occurs in `s`. */
  lemma ContainsWithin(s: string, part: string, piece: string)
    requires Contains(s, part) && Contains(part, piece)
    ensures Contains(s, piece)
  {
    var i: nat :| i <= |s| && OccursAt(s, part, i);
    var j: nat :| j <= |part| && OccursAt(part, piece, j);
    var k := i + j;
    assert k + |piece| <= |s|;
    forall m | 0 <= m < |piece|
      ensures s[k + m] == piece[m]
    {
      assert s[k + m] == s[i..i + |part|][j + m] == part[j + m] == part[j..j + |piece|][m];
    }
    assert s[k..k + |piece|] == piece;
    assert OccursAt(s, piece, k);
  }

  /** Shape of a catalog query reading `view`, with the clause `filter` and the trailing `order`. */
  lemma CatalogQueryShape(head: string, database: Option<string>, view: string, filter: string, order: string)
    requires filter != [] && filter[0] == ' '
    ensures TargetsCatalog(head + DbPrefix(database) + InfoSchema + view + filter + order, head, database, view)
    ensures Contains(head + DbPrefix(database) + InfoSchema + view + filter + order, filter)
    ensures EndsWith(head + DbPrefix(database) + InfoSchema + view + filter + order, order)
  {
    var front := head + DbPrefix(database) + InfoSchema + view;
    assert front + filter + order == front + (filter + order);
    CatalogQueryScope(head, database, view, filter + order);
    ContainsMiddle(front, filter, order);
    EndsWithEnd(front + filter, order);
  }

  /** Rewriting step: a concatenation ends with its last piece. */
  lemma EndsWithEnd(front: string, suffix: string)
    ensures EndsWith(front + suffix, suffix)
  {
    assert (front + suffix)[|front|..] == suffix;
  }

  /** The WHERE clause `kind AND <column> != 'INFORMATION_SCHEMA'` holds both conditions. */
  lemma KindFilter(kind: string, column: string)
    ensures var filter := " WHERE " + kind + " AND " + Excluding(column);
      filter[0] == ' ' && Contains(filter, kind) && Contains(filter, Excluding(column))
  {
    ContainsMiddle(" WHERE ", kind, " AND " + Excluding(column));
    assert " WHERE " + kind + (" AND " + Excluding(column)) == " WHERE " + kind + " AND " + Excluding(column);
    ContainsEnd(" WHERE " + kind + " AND ", Excluding(column));
  }

  /** A query that joins two catalog views, each qualified by the same database. */
  lemma TwiceQualifiedScope(head: string, database: Option<string>, view1: string, mid: string, view2: string, tail: string)
    requires mid != [] && (mid[0] == ' ' || mid[0] == '\n')
    requires tail != [] && (tail[0] == ' ' || tail[0] == '\n')
    ensures TargetsCatalog(head + DbPrefix(database) + InfoSchema + view1 + mid + DbPrefix(database) + InfoSchema + view2 + tail,
                           head, database, view1)
    ensures TargetsCatalog(head + DbPrefix(database) + InfoSchema + view1 + mid + DbPrefix(database) + InfoSchema + view2 + tail,
                           head + DbPrefix(database) + InfoSchema + view1 + mid, database, view2)
  {
    var p := DbPrefix(database);
    var front := head + p + InfoSchema + view1;
    RegroupTail(front, mid, p, InfoSchema, view2, tail);
    CatalogQueryScope(head, database, view1, mid + p + InfoSchema + view2 + tail);
    CatalogQueryScope(head + p + InfoSchema + view1 + mid, database, view2, tail);
  }

  const TablesHead := "SELECT table_schema, table_name FROM "
  const BaseTablesOnly := "table_type = 'BASE TABLE'"
  const ByTableName := " ORDER BY table_schema, table_name"

  /**
   * The `get_tables_via_info_schema` query: the base tables (not views) of the catalog, outside
   * the information schema, ordered by schema and name.
   */
  function TablesStatement(database: Option<string>): (st: Statement)
    ensures st.params.None?
    ensures TargetsCatalog(st.sql, TablesHead, database, "tables")
    ensures Contains(st.sql, " WHERE " + BaseTablesOnly + " AND " + Excluding("table_schema"))
    ensures Contains(st.sql, BaseTablesOnly) && Contains(st.sql, Excluding("table_schema"))
    ensures EndsWith(st.sql, ByTableName)
  {
    var filter := " WHERE " + BaseTablesOnly + " AND " + Excluding("table_schema");
    KindFilter(BaseTablesOnly, "table_schema");
    CatalogQueryShape(TablesHead, database, "tables", filter, ByTableName);
    var sql := TablesHead + DbPrefix(database) + InfoSchema + "tables" + filter + ByTableName;
    ContainsWithin(sql, filter, BaseTablesOnly);
    ContainsWithin(sql, filter, Excluding("table_schema"));
    Statement(sql, None)
  }

  const ShowViewsInDatabase := "SHOW VIEWS IN DATABASE "

  /** The `SHOW VIEWS` command that `get_views` runs first; it names the database when one is given. */
  function ShowViewsStatement(database: Option<string>): (st: Statement)
    ensures st.params.None?
    ensures !Truthy(database) ==> st.sql == "SHOW VIEWS"
    ensures Truthy(database) ==>
      |ShowViewsInDatabase| <= |st.sql| && st.sql[..|ShowViewsInDatabase|] == ShowViewsInDatabase &&
      ParseDelimited(st.sql[|ShowViewsInDatabase|..]) == Some((database.value, ""))
  {
    if Truthy(database) then
      var q := QuoteIdentifier(database.value);
      QuotedIdentifierParses(database.value, "");
      assert q + "" == q;
      var sql := ShowViewsInDatabase + q;
      assert sql[|ShowViewsInDatabase|..] == q;
      Statement(sql, None)
    else
      Statement("SHOW VIEWS", None)
  }

  /** The `get_views` query: the views of the catalog, outside the information schema, ordered by schema and name. */
  function ViewsStatement(database: Option<string>): (st: Statement)
    ensures st.params.None?
    ensures TargetsCatalog(st.sql, TablesHead, database, "views")
    ensures Contains(st.sql, Excluding("table_schema"))
    ensures EndsWith(st.sql, ByTableName)
  {
    var filter := " WHERE " + Excluding("table_schema");
    CatalogQueryShape(TablesHead, database, "views", filter, ByTableName);
    var sql := TablesHead + DbPrefix(database) + InfoSchema + "views" + filter + ByTableName;
    ContainsEnd(" WHERE ", Excluding("table_schema"));
    ContainsWithin(sql, filter, Excluding("table_schema"));
    Statement(sql, None)
  }

  const ColumnsHead := "\n            SELECT column_name, data_type, ordinal_position\n            FROM "
  const ColumnsWhere := " WHERE table_schema = %s AND table_name = %s"
  const ByPosition := "ORDER BY ordinal_position"
  const ColumnsOrder := "\n            " + ByPosition + "\n        "

  /** The text after `information_schema.columns`: the table filter, then the column order. */
  lemma ColumnsRest(lead: string)
    ensures Contains(lead + ColumnsWhere + ColumnsOrder, ColumnsWhere)
    ensures Contains(lead + ColumnsWhere + ColumnsOrder, ByPosition)
  {
    var rest := lead + ColumnsWhere + ColumnsOrder;
    ContainsMiddle(lead, ColumnsWhere, ColumnsOrder);
    ContainsEnd(lead + ColumnsWhere, ColumnsOrder);
    ContainsMiddle("\n            ", ByPosition, "\n        ");
    ContainsWithin(rest, ColumnsOrder, ByPosition);
  }

  /**
   * The first `get_columns` query: the columns of one table, read from the catalog's `columns`
   * view in column order. Its WHERE clause binds the schema and the table name to the two
   * parameters, which are the schema (`PUBLIC`, the adapter's default schema, when none or an
   * empty one is given) and the table.
   */
  function ColumnsStatement(table: string, database: Option<string>, schema: Option<string>): (st: Statement)
    ensures st.params == Some([OrDefault(schema, Capabilities.Snowflake.defaultSchema), table])
    ensures TargetsCatalog(st.sql, ColumnsHead, database, "columns")
    ensures Contains(st.sql, ColumnsWhere)
    ensures Contains(st.sql, ByPosition)
  {
    var lead := "\n" + "           ";
    var rest := lead + ColumnsWhere + ColumnsOrder;
    assert rest[0] == '\n';
    CatalogQueryScope(ColumnsHead, database, "columns", rest);
    var front := ColumnsHead + DbPrefix(database) + InfoSchema + "columns";
    var sql := front + rest;
    ContainsEnd(front, rest);
    ColumnsRest(lead);
    ContainsWithin(sql, rest, ColumnsWhere);
    ContainsWithin(sql, rest, ByPosition);
    Statement(sql, Some([OrDefault(schema, "PUBLIC"), table]))
  }

  const PkHead := "\n            SELECT kcu.column_name\n            FROM "
  const PkMid := " tc\n            JOIN "
  const PkJoin := "ON tc.constraint_name = kcu.constraint_name\n              AND tc.table_schema = kcu.table_schema"
  const PrimaryKeysOnly := "tc.constraint_type = 'PRIMARY KEY'"
  const PkFilter := "tc.table_schema = %s AND tc.table_name = %s"
  const PkOn := " " + "kcu\n              " + PkJoin + "\n            WHERE "
  const PkWhere := "\n            AND " + PkFilter + "\n        "

  /**
   * The second `get_columns` query: the primary-key columns of one table, read from the
   * `table_constraints` and `key_column_usage` views, both qualified by the same database and
   * joined on the constraint name and schema. Its WHERE clause keeps primary keys and binds the
   * schema and the table name to the same two parameters as the column query.
   */
  function PkStatement(table: string, database: Option<string>, schema: Option<string>): (st: Statement)
    ensures st.params == Some([OrDefault(schema, Capabilities.Snowflake.defaultSchema), table])
    ensures TargetsCatalog(st.sql, PkHead, database, "table_constraints")
    ensures TargetsCatalog(st.sql, PkHead + DbPrefix(database) + InfoSchema + "table_constraints" + PkMid,
                           database, "key_column_usage")
    ensures Contains(st.sql, PkJoin)
    ensures Contains(st.sql, PrimaryKeysOnly)
    ensures Contains(st.sql, PkFilter)
  {
    var tail := PkOn + PrimaryKeysOnly + PkWhere;
    assert PkOn[0] == ' ';
    assert tail[0] == PkOn[0];
    TwiceQualifiedScope(PkHead, database, "table_constraints", PkMid, "key_column_usage", tail);
    var front := PkHead + DbPrefix(database) + InfoSchema + "table_constraints" + PkMid + DbPrefix(database) + InfoSchema + "key_column_usage";
    var sql := front + tail;
    ContainsEnd(front, tail);
    PkTailParts();
    ContainsWithin(sql, tail, PkJoin);
    ContainsWithin(sql, tail, PrimaryKeysOnly);
    ContainsWithin(sql, tail, PkFilter);
    Statement(sql, Some([OrDefault(schema, "PUBLIC"), table]))
  }

  /** The join condition, the key filter and the table filter all occur in the key query's tail. */
  lemma PkTailParts()
    ensures Contains(PkOn + PrimaryKeysOnly + PkWhere, PkJoin)
    ensures Contains(PkOn + PrimaryKeysOnly + PkWhere, PrimaryKeysOnly)
    ensures Contains(PkOn + PrimaryKeysOnly + PkWhere, PkFilter)
  {
    var tail := PkOn + PrimaryKeysOnly + PkWhere;
    ContainsMiddle(PkOn, PrimaryKeysOnly, PkWhere);
    ContainsEnd(PkOn + PrimaryKeysOnly, PkWhere);
    ContainsMiddle("\n            AND ", PkFilter, "\n        ");
    ContainsWithin(tail, PkWhere, PkFilter);
    ContainsMiddle(" " + "kcu\n              ", PkJoin, "\n            WHERE ");
    PkOnStartsTail();
    ContainsWithin(tail, PkOn, PkJoin);
  }

  lemma PkOnStartsTail()
    ensures Contains(PkOn + PrimaryKeysOnly + PkWhere, PkOn)
  {
    assert OccursAt(PkOn + PrimaryKeysOnly + PkWhere, PkOn, 0);
  }

  const RoutinesHead := "SELECT routine_name FROM "
  const ProceduresOnly := "routine_type = 'PROCEDURE'"
  const ByRoutineName := " ORDER BY routine_name"

  /**
   * The `get_procedures` query: the stored procedures (not functions) of the catalog, outside the
   * information schema, ordered by name.
   */
  function ProceduresStatement(database: Option<string>): (st: Statement)
    ensures st.params.None?
    ensures TargetsCatalog(st.sql, RoutinesHead, database, "routines")
    ensures Contains(st.sql, " WHERE " + ProceduresOnly + " AND " + Excluding("routine_schema"))
    ensures Contains(st.sql, ProceduresOnly) && Contains(st.sql, Excluding("routine_schema"))
    ensures EndsWith(st.sql, ByRoutineName)
  {
    var filter := " WHERE " + ProceduresOnly + " AND " + Excluding("routine_schema");
    KindFilter(ProceduresOnly, "routine_schema");
    CatalogQueryShape(RoutinesHead, database, "routines", filter, ByRoutineName);
    var sql := RoutinesHead + DbPrefix(database) + InfoSchema + "routines" + filter + ByRoutineName;
    ContainsWithin(sql, filter, ProceduresOnly);
    ContainsWithin(sql, filter, Excluding("routine_schema"));
    Statement(sql, None)
  }

  const SequencesHead := "SELECT sequence_name FROM "

  /** The `get_sequences` query: the sequences of the catalog outside the information schema. */
  function SequencesStatement(database: Option<string>): (st: Statement)
    ensures st.params.None?
    ensures TargetsCatalog(st.sql, SequencesHead, database, "sequences")
    ensures Contains(st.sql, Excluding("sequence_schema"))
  {
    var filter := " WHERE " + Excluding("sequence_schema");
    CatalogQueryScope(SequencesHead, database, "sequences", filter);
    var sql := SequencesHead + DbPrefix(database) + InfoSchema + "sequences" + filter;
    ContainsEnd(" WHERE ", Excluding("sequence_schema"));
    ContainsEnd(SequencesHead + DbPrefix(database) + InfoSchema + "sequences", filter);
    ContainsWithin(sql, filter, Excluding("sequence_schema"));
    Statement(sql, None)
  }
}
