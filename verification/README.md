# Snowflake adapter of sqlit, modelled in Dafny

sqlit talks to many SQL backends through one adapter interface. This project models the Snowflake
adapter, `SnowflakeAdapter` in `sqlit/db/adapters/snowflake.py`. It covers:

- the identifier quoting that every catalog query uses;
- the information-schema queries and the records made from their rows (tables, views, columns
  with primary-key flags, procedures, sequences, databases);
- query execution with a row ceiling and truncation flag, and affected-row reporting;
- the driver arguments that `connect` builds from a connection configuration;
- the preview query of `build_select_query`;
- the fixed capability flags (`Capabilities.Snowflake`: badge `SNOW`, multiple databases,
  stored procedures, default schema `PUBLIC`, install hints).

The driver is modelled as a `Connection` that holds the backend as a fixed function from
statements (SQL text plus optional parameters) to replies. A reply is either an answer or the
backend's error. An answer has an optional column description, the result rows and an optional
row count. `conn.cursor()` gives a `Cursor` object. It holds the current result and a read
position. `Execute` replaces the result. `FetchMany(n)` and `FetchAll()` return the next rows and
advance the position. Each adapter operation opens a fresh cursor, runs its statements in the
source's order, and stops with `Failure` at the first backend error, as the Python exception
would propagate. `row[i]` on a row with too few cells ends in `IndexError`.

Modules: `Outcomes` (Option/Result, Python truthiness), `Quoting`, `Numerals` (decimal
rendering of the LIMIT), `Ordering` (Python string order, `sorted(set(...))`), `Capabilities`,
`Driver`, `CatalogSql` (query texts), `Results` (row projections and merges),
`SnowflakeAdapter` (the operations), `Connect`, `Preview`.

## Model

| member | source | states |
|---|---|---|
| Quoting.QuoteIdentifier | sqlit/db/adapters/snowflake.py:202-205 | the result starts and ends with `"`, its length is the name's plus 2 plus one per `"` in the name, and its interior unescapes (every `""` read as `"`) to exactly the name |
| Quoting.EscapeRoundTrip | sqlit/db/adapters/snowflake.py:204 | undoubling the quotes of `name.replace('"', '""')` gives back the name |
| Quoting.EscapeLength | sqlit/db/adapters/snowflake.py:204 | the escaped text is longer than the name by the number of quotes in it |
| Quoting.QuotedIdentifierParses | sqlit/db/adapters/snowflake.py:202-205 | a SQL lexer reading the quoted identifier followed by any text not starting with `"` gets back exactly the name and leaves the following text untouched (injection safety) |
| Quoting.QuoteIdentifierInjective | sqlit/db/adapters/snowflake.py:202-205 | different names never quote to the same identifier |
| Quoting.QuoteDoublesEmbeddedQuote | sqlit/db/adapters/snowflake.py:204-205 | a quote inside a name is written twice, e.g. `first"name` becomes `"first""name"` |
| Quoting.QuoteWithoutQuotes | sqlit/db/adapters/snowflake.py:204-205 | a name without quotes is only wrapped in quotes |
| Numerals.IntToStringRoundTrip | sqlit/db/adapters/snowflake.py:210 | the decimal text written for the LIMIT reads back as the same integer, negative ones included |
| Capabilities.Snowflake | sqlit/db/adapters/snowflake.py:16-46 | name `Snowflake`, badge `SNOW`, install extra `snowflake`, package `snowflake-connector-python`, import name `snowflake.connector`, multiple databases and stored procedures both supported, default schema `PUBLIC` |
| Ordering.SortedUnique | sqlit/db/adapters/snowflake.py:219 | the result is strictly ascending in Python's string order and holds exactly the distinct input names |
| Ordering.AscendingUnique | sqlit/db/adapters/snowflake.py:219 | two strictly ascending lists with the same elements are equal, so the sorted list is determined by the set |
| Ordering.SortedUniqueOfSameSet | sqlit/db/adapters/snowflake.py:219 | `sorted(set(names))` depends only on which names occur, not on their order or repetition |
| CatalogSql.PrefixScope | sqlit/db/adapters/snowflake.py:151 | the database prefix reads back as exactly the requested database when one is given (any characters in its name), and as no qualifier for None or an empty name |
| CatalogSql.TablesStatement | sqlit/db/adapters/snowflake.py:151-153 | the query reads the `tables` view of exactly the requested database's catalog (unqualified when none is given), has the clause `WHERE table_type = 'BASE TABLE' AND table_schema != 'INFORMATION_SCHEMA'`, ends with `ORDER BY table_schema, table_name` and takes no parameters |
| CatalogSql.ShowViewsStatement | sqlit/db/adapters/snowflake.py:127-130 | `SHOW VIEWS`, followed by ` IN DATABASE ` and the database read back exactly when a database is given |
| CatalogSql.ViewsStatement | sqlit/db/adapters/snowflake.py:139-145 | the query reads the `views` view of exactly the requested database's catalog, excludes the `INFORMATION_SCHEMA` schema, ends with `ORDER BY table_schema, table_name` and takes no parameters |
| CatalogSql.ColumnsStatement | sqlit/db/adapters/snowflake.py:165-175 | the query reads the `columns` view of the requested catalog, restricted by `WHERE table_schema = %s AND table_name = %s` to one table, and orders by `ordinal_position`; its parameters are the schema, or the adapter's default schema `PUBLIC` when it is None or empty, and the table |
| CatalogSql.PkStatement | sqlit/db/adapters/snowflake.py:181-194 | the key query joins the `table_constraints` and `key_column_usage` views, both qualified by the same requested database, on the constraint name and schema; it keeps only `PRIMARY KEY` constraints and restricts them by `tc.table_schema = %s AND tc.table_name = %s` to one table, with the same defaulted schema and table as parameters |
| CatalogSql.ProceduresStatement | sqlit/db/adapters/snowflake.py:215-217 | the query reads the `routines` view of the requested catalog, has the clause `WHERE routine_type = 'PROCEDURE' AND routine_schema != 'INFORMATION_SCHEMA'` and ends with `ORDER BY routine_name` |
| CatalogSql.SequencesStatement | sqlit/db/adapters/snowflake.py:237-239 | the query reads the `sequences` view of the requested catalog and excludes the `INFORMATION_SCHEMA` schema |
| Results.Cells | sqlit/db/adapters/snowflake.py:106 | `[row[i] for row in rows]` succeeds exactly when every row has a cell `i`, and then gives that cell of each row in order; otherwise IndexError |
| Results.Tables | sqlit/db/adapters/snowflake.py:154 | one (schema, name) record per row, in order; IndexError exactly when some row has fewer than two cells |
| Results.Sequences | sqlit/db/adapters/snowflake.py:240 | one sequence record per row, named by its first cell, in order; IndexError exactly when some row is empty |
| Results.TagColumns | sqlit/db/adapters/snowflake.py:197-200 | one column record per row, in order, flagged as primary key exactly when its name is in the key set |
| Results.MergePrimaryKeys | sqlit/db/adapters/snowflake.py:192-200 | one column record per row of the column query, same order, name and type from its first two cells, primary key exactly when some row of the key query names it; IndexError exactly when a row is too short |
| Results.MergeIgnoresKeyOrder | sqlit/db/adapters/snowflake.py:195-200 | the key flags depend only on which names the key query returned, not on their order or repetition |
| Results.ProcedureNames | sqlit/db/adapters/snowflake.py:219 | the procedure list is strictly ascending and holds exactly the first cells of the fetched rows; IndexError exactly when some row is empty |
| Results.ProcedureNamesOfSameSet | sqlit/db/adapters/snowflake.py:219 | two fetches naming the same set of routines give the same list |
| SnowflakeAdapter.ColumnNames | sqlit/db/adapters/snowflake.py:247-249 | the columns are empty when the description is None or empty, and otherwise the first field of each description entry, in order |
| SnowflakeAdapter.QueryOutcome | sqlit/db/adapters/snowflake.py:242-260 | a backend error is passed on; with a limit `k`, `truncated` holds exactly when more than `k` rows exist, and the rows are then exactly the first `k` rows of the result (all rows when not truncated); without a limit all rows and `truncated` false |
| SnowflakeAdapter.ExecuteQuery | sqlit/db/adapters/snowflake.py:242-260 | executing through a cursor with `fetchmany(k + 1)` or `fetchall()` returns exactly `QueryOutcome` of the backend's reply |
| SnowflakeAdapter.ExecuteNonQuery | sqlit/db/adapters/snowflake.py:262-266 | the reported row count when there is one, -1 when there is none (never an error for that reason), the backend's error otherwise |
| SnowflakeAdapter.GetDatabases | sqlit/db/adapters/snowflake.py:102-106 | the second cell of every `SHOW DATABASES` row, or the backend's error |
| SnowflakeAdapter.GetTablesViaInfoSchema | sqlit/db/adapters/snowflake.py:148-154 | one (schema, name) record per row of the base-table query, or the backend's error |
| SnowflakeAdapter.GetTables | sqlit/db/adapters/snowflake.py:157-158 | the same answer as the information-schema listing |
| SnowflakeAdapter.GetViews | sqlit/db/adapters/snowflake.py:124-146 | an error of `SHOW VIEWS` is raised; otherwise one (schema, name) record per row of the view query, or that query's error |
| SnowflakeAdapter.GetColumns | sqlit/db/adapters/snowflake.py:160-200 | the column query runs first, then the key query on the same cursor; the first error is passed on, otherwise the merge of the two fetched row lists |
| SnowflakeAdapter.GetProcedures | sqlit/db/adapters/snowflake.py:212-219 | the sorted distinct routine names of the fetched rows, or the backend's error |
| SnowflakeAdapter.GetSequences | sqlit/db/adapters/snowflake.py:234-240 | one sequence record per fetched row, or the backend's error |
| SnowflakeAdapter.GetIndexes | sqlit/db/adapters/snowflake.py:221-227 | always the empty list |
| SnowflakeAdapter.GetTriggers | sqlit/db/adapters/snowflake.py:229-232 | always the empty list |
| Driver.Connection.NewCursor | sqlit/db/adapters/snowflake.py:244 | a fresh cursor of this connection with no result |
| Driver.Cursor.Execute | sqlit/db/adapters/snowflake.py:245 | the cursor's description, row count and unread rows become the backend's answer, or the error is reported and no result is left |
| Driver.Cursor.FetchMany | sqlit/db/adapters/snowflake.py:252 | the next `n` unread rows (all of them when fewer remain); the rest stay unread |
| Driver.Cursor.FetchAll | sqlit/db/adapters/snowflake.py:257 | every unread row; none remain |
| Connect.ConnectArgsOf | sqlit/db/adapters/snowflake.py:58-95 | the keys are exactly `user`, `password`, `account`, `database` plus those of `warehouse`, `schema`, `role` present in the extras; `account` is the server, the other fixed keys carry their field, each copied extra keeps its value |
| Connect.ConnectArgs | sqlit/db/adapters/snowflake.py:57-95 | the dictionary built by conditional insertions equals `ConnectArgsOf` |
| Connect.ConnectArgsIgnoreOtherExtras | sqlit/db/adapters/snowflake.py:89-95 | configs that agree on the fixed fields and the recognised extras get the same arguments: unknown extras are ignored and missing or None extras act like an empty mapping |
| Preview.ParseQuotedSelect | sqlit/db/adapters/snowflake.py:210 | a preview query built from quoted names reads back as exactly that schema, table and limit |
| Preview.BuildSelectQuery | sqlit/db/adapters/snowflake.py:207-210 | corrected query (see ## Findings): the preview query reads back as exactly the schema (`PUBLIC` when None or empty), the table and the limit, whatever the names contain; the database plays no part |
| Preview.BuildSelectQueryAsWritten | sqlit/db/adapters/snowflake.py:207-210 | the query as written: while neither name contains a quote it is exactly the correctly quoted query |
| Preview.AsWrittenIgnoresDatabase | sqlit/db/adapters/snowflake.py:207-210 | the query as written is the same for every database argument |
| Preview.AsWrittenAgreesWithoutQuotes | sqlit/db/adapters/snowflake.py:207-210 | while neither name contains a quote, the query as written reads back as the intended schema, table and limit |
| Preview.AsWrittenMisreadsQuotedTable | sqlit/db/adapters/snowflake.py:207-210 | for any table name containing a quote (`a"b`, `a"`, `"`, ...) and a schema without one, the query as written does not read back as that table, whatever the limit and the database |

## Findings

| source | as written | input that shows it | evidently intended | confidence | as-written member | corrected member |
|---|---|---|---|---|---|---|
| sqlit/db/adapters/snowflake.py:207-210 | schema and table are put between quotes without doubling quotes inside them | table `a"b`: the query reads `"PUBLIC"."a"b" LIMIT n`, whose table identifier ends after `a` | both names quoted with `quote_identifier`, as the adapter does for database names | not executed; medium | Preview.BuildSelectQueryAsWritten, Preview.AsWrittenMisreadsQuotedTable | Preview.BuildSelectQuery |

Everywhere else the adapter puts a name into SQL text, it goes through `quote_identifier`: the
database names at lines 117, 129, 142, 151, 166, 215 and 237. Line 210 wraps the schema and
table in quotes by hand instead. `BuildSelectQueryAsWritten` models the text as written, and
`BuildSelectQuery` is the corrected version.

## Left out

- Driver loading (`import_driver_module`) and the network call `sf.connect(**connect_args)`: foreign code and I/O. `Connect.ConnectArgs` models only the argument dictionary, and the missing-driver error is not modelled.
- The first `get_tables` definition (`SHOW TABLES`, lines 108-122): a later definition with the same name replaces it, so it is never called.
- `tests/test_athena.py`: an integration test against cloud services for an adapter that is not part of this model.
- `base.py` (`CursorBasedAdapter`, the record classes) and `ConnectionConfig` are not part of this model. The records are plain datatypes. The configuration keeps only the fields `connect` reads (`server`, `username`, `password`, `database`, `extras`), all as text. Extras values are text.
- What the catalog queries mean when the backend runs them: the model fixes their text, the database they address and their `INFORMATION_SCHEMA` filter, not the rows a real Snowflake returns.
- The backend is a fixed function of the statement, so the effect of one statement on a later one (an INSERT before a SELECT) is not modelled. Neither is the cursor's state after a failed `execute` (the model leaves it empty).
- Result cells are text. SQL NULL and typed values are not told apart, so Python's `TypeError` from `sorted` over mixed or None routine names cannot arise. `tuple(row)` is the identity on rows.
- `execute_query` with a negative `max_rows`: the model takes the limit as a natural number. For `max_rows <= -2` the source calls `fetchmany` with a negative size, whose driver behaviour is not visible here. For `max_rows = -1` it calls `fetchmany(0)`, and the result then comes from Python's negative slicing: `truncated` is always true and `rows[:-1]` drops the last fetched row. Neither case is modelled.
- `cursor.description` entries hold only a name and a type code; only the name is read.
- The `get_views` call to `SHOW VIEWS` is modelled only for its failure; its rows are never read.
- The capability properties (`name`, `badge_label`, install hints, flags, `default_schema`) are constants in `Capabilities.Snowflake`. They carry no contract of their own. The column and preview queries are stated against its `defaultSchema`.
