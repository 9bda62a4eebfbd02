/**
 * `build_select_query`: the preview query `SELECT * FROM "<schema>"."<table>" LIMIT <n>`, and the
 * reading side a SQL lexer applies to it. The text as written wraps the names in quotes without
 * doubling the quotes inside them; `BuildSelectQuery` quotes both names with `QuoteIdentifier`.
 */
module Preview {
  import opened Outcomes
  import opened Quoting
  import opened Numerals
  import Capabilities

  const SelectHead := "SELECT * FROM "
  const LimitWord := " LIMIT "

  /** What a preview query selects from, and its row limit. */
  datatype SelectTarget = SelectTarget(schema: string, table: string, limit: int)

  /** Reads `SELECT * FROM <delimited id>.<delimited id> LIMIT <integer>`. */
  function ParseSelectQuery(q: string): Option<SelectTarget> {
    if |q| < |SelectHead| || q[..|SelectHead|] != SelectHead then None
    else
      match ParseDelimited(q[|SelectHead|..])
      case None => None
      case Some((schema, rest)) =>
        if rest == [] || rest[0] != '.' then None else ParseTableAndLimit(schema, rest[1..])
  }

  /** Reads `<delimited id> LIMIT <integer>`, the part after the schema and its dot. */
  function ParseTableAndLimit(schema: string, s: string): Option<SelectTarget> {
    match ParseDelimited(s)
    case None => None
    case Some((table, after)) =>
      if |after| < |LimitWord| || after[..|LimitWord|] != LimitWord then None
      else
        match ParseInt(after[|LimitWord|..])
        case None => None
        case Some(n) => Some(SelectTarget(schema, table, n))
  }

  lemma ParseQuotedTable(schema: string, table: string, digits: string, limit: int)
    requires ParseInt(digits) == Some(limit)
    ensures ParseTableAndLimit(schema, QuoteIdentifier(table) + (LimitWord + digits))
         == Some(SelectTarget(schema, table, limit))
  {
    var after := LimitWord + digits;
    QuotedIdentifierParses(table, after);
    assert after[..|LimitWord|] == LimitWord && after[|LimitWord|..] == digits;
  }

  /** Reading `SELECT * FROM` + quoted schema + `.` + quoted table + ` LIMIT ` + a numeral gives back all three. */
  lemma ParseQuotedSelect(schema: string, table: string, digits: string, limit: int)
    requires ParseInt(digits) == Some(limit)
    ensures ParseSelectQuery(SelectHead + (QuoteIdentifier(schema) + (['.'] + (QuoteIdentifier(table) + (LimitWord + digits)))))
         == Some(SelectTarget(schema, table, limit))
  {
    var tail := QuoteIdentifier(table) + (LimitWord + digits);
    var rest := ['.'] + tail;
    var q := SelectHead + (QuoteIdentifier(schema) + rest);
    assert q[..|SelectHead|] == SelectHead && q[|SelectHead|..] == QuoteIdentifier(schema) + rest;
    QuotedIdentifierParses(schema, rest);
    ParseSelectQueryStep(q, schema, rest);
    assert rest[1..] == tail;
    ParseQuotedTable(schema, table, digits, limit);
  }

  /** Rewriting step: one unfolding of `ParseSelectQuery` once the schema has been read. */
  lemma ParseSelectQueryStep(q: string, schema: string, rest: string)
    requires |SelectHead| <= |q| && q[..|SelectHead|] == SelectHead
    requires ParseDelimited(q[|SelectHead|..]) == Some((schema, rest)) && rest != [] && rest[0] == '.'
    ensures ParseSelectQuery(q) == ParseTableAndLimit(schema, rest[1..])
  {
  }

  /** Rewriting step: whatever `ParseTableAndLimit` returns names the identifier it read first. */
  lemma ParseTableAndLimitReads(schema: string, s: string, table: string, after: string)
    requires ParseDelimited(s) == Some((table, after))
    ensures ParseTableAndLimit(schema, s).None? || ParseTableAndLimit(schema, s).value.table == table
  {
  }

  /** `f'"{name}"'`: quotes around the name, with nothing inside escaped. */
  function Wrap(name: string): string {
    [Dq] + name + [Dq]
  }

  /**
   * The preview query as the adapter writes it: the schema (`PUBLIC` when none or an empty one is
   * given) and the table each wrapped in quotes, nothing inside them escaped, and the database
   * argument unused. While neither name contains a quote it is the correctly quoted query.
   */
  function BuildSelectQueryAsWritten(table: string, limit: int, database: Option<string>, schema: Option<string>): (q: string)
    ensures Dq !in OrDefault(schema, "PUBLIC") && Dq !in table ==> q == BuildSelectQuery(table, limit, None, schema)
  {
    var s := OrDefault(schema, "PUBLIC");
    assert Dq !in s ==> QuoteIdentifier(s) == Wrap(s) by {
      if Dq !in s { QuoteWithoutQuotes(s); }
    }
    assert Dq !in table ==> QuoteIdentifier(table) == Wrap(table) by {
      if Dq !in table { QuoteWithoutQuotes(table); }
    }
    SelectHead + (Wrap(s) + ("." + (Wrap(table) + (LimitWord + IntToString(limit)))))
  }

  /** While neither name contains a quote, the text as written reads back as intended. */
  lemma AsWrittenAgreesWithoutQuotes(table: string, limit: int, database: Option<string>, schema: Option<string>)
    requires Dq !in OrDefault(schema, "PUBLIC") && Dq !in table
    ensures ParseSelectQuery(BuildSelectQueryAsWritten(table, limit, database, schema))
         == Some(SelectTarget(OrDefault(schema, "PUBLIC"), table, limit))
  {
  }

  /** The database argument plays no part in the text as written. */
  lemma AsWrittenIgnoresDatabase(table: string, limit: int, database: Option<string>, schema: Option<string>)
    ensures BuildSelectQueryAsWritten(table, limit, database, schema) == BuildSelectQueryAsWritten(table, limit, None, schema)
  {
  }

  /** Rewriting step: the text as written, with the dot as a one-character sequence. */
  lemma AsWrittenText(table: string, limit: int, database: Option<string>, schema: Option<string>)
    ensures BuildSelectQueryAsWritten(table, limit, database, schema)
         == SelectHead + (Wrap(OrDefault(schema, "PUBLIC")) + (['.'] + (Wrap(table) + (LimitWord + IntToString(limit)))))
  {
  }

  /**
   * A table name with a quote in it (`a"b`, `a"`, `"`, say) ends the identifier early: whatever a
   * lexer makes of the rest, the query does not select from the table that was asked for.
   */
  lemma AsWrittenMisreadsQuotedTable(table: string, limit: int, database: Option<string>, schema: Option<string>)
    requires Dq !in OrDefault(schema, "PUBLIC") && Dq in table
    ensures ParseSelectQuery(BuildSelectQueryAsWritten(table, limit, database, schema))
         != Some(SelectTarget(OrDefault(schema, "PUBLIC"), table, limit))
  {
    var s := OrDefault(schema, "PUBLIC");
    var more := LimitWord + IntToString(limit);
    var q := BuildSelectQueryAsWritten(table, limit, database, schema);
    var tail := Wrap(table) + more;
    assert ParseSelectQuery(q) == ParseTableAndLimit(s, tail) by {
      var rest := ['.'] + tail;
      QuoteWithoutQuotes(s);
      AsWrittenText(table, limit, database, schema);
      assert q[..|SelectHead|] == SelectHead && q[|SelectHead|..] == QuoteIdentifier(s) + rest;
      QuotedIdentifierParses(s, rest);
      ParseSelectQueryStep(q, s, rest);
      assert rest[1..] == tail;
    }
    assert Dq !in more by {
      IntToStringHasNoQuote(limit);
    }
    WrappedTableMisread(s, table, more);
  }

  /** Reading a wrapped table name that holds a quote never yields that name. */
  lemma WrappedTableMisread(schema: string, table: string, more: string)
    requires Dq in table && Dq !in more
    ensures ParseTableAndLimit(schema, Wrap(table) + more).None? ||
            ParseTableAndLimit(schema, Wrap(table) + more).value.table != table
  {
    var tail := Wrap(table) + more;
    var body := table + [Dq] + more;
    assert ParseDelimited(tail) == ParseBody(body) by {
      assert tail == [Dq] + body;
      assert tail[1..] == body;
    }
    WrappedWithQuoteShorter(table, more);
    if ParseBody(body).Some? {
      var (id, after) := ParseBody(body).value;
      ParseTableAndLimitReads(schema, tail, id, after);
      assert id != table by {
        assert |id| < |table|;
      }
    }
  }

  /**
   * The preview query with both names quoted by `QuoteIdentifier`: whatever the names contain, it
   * reads back as exactly this schema (`PUBLIC` when none or an empty one is given), this table
   * and this limit, and the database argument plays no part.
   */
  function BuildSelectQuery(table: string, limit: int, database: Option<string>, schema: Option<string>): (q: string)
    ensures ParseSelectQuery(q) ==
      Some(SelectTarget(OrDefault(schema, Capabilities.Snowflake.defaultSchema), table, limit))
  {
    var s := OrDefault(schema, "PUBLIC");
    IntToStringRoundTrip(limit);
    ParseQuotedSelect(s, table, IntToString(limit), limit);
    SelectHead + (QuoteIdentifier(s) + ("." + (QuoteIdentifier(table) + (LimitWord + IntToString(limit)))))
  }
}
