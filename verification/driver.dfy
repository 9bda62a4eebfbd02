/**
 * The database driver as the adapter sees it: a connection that hands out cursors, and a
 * cursor that executes one statement at a time and then yields that statement's rows.
 * The backend itself is a fixed function from statements to replies.
 */
module Driver {
  import opened Outcomes

  /** A result row; every cell is modelled as text. */
  type Row = seq<string>

  /** One entry of `cursor.description`; only its first field, the column name, is read. */
  datatype ColumnDesc = ColumnDesc(name: string, typeCode: string)

  /** SQL text and the optional parameter tuple passed to `cursor.execute`. */
  datatype Statement = Statement(sql: string, params: Option<seq<string>>)

  /** What the backend answers to one statement: a result, or the error it raises. */
  datatype Reply =
    | Answer(description: Option<seq<ColumnDesc>>, rows: seq<Row>, rowcount: Option<int>)
    | Raised(message: string)

  /** The exceptions an adapter call can end with. */
  datatype Error =
    | QueryFailure(message: string)  // raised by the backend, passed on unchanged
    | IndexError                     // `row[i]` on a row with too few cells

  class Connection {
    const respond: Statement -> Reply

    constructor (respond: Statement -> Reply)
      ensures this.respond == respond
    {
      this.respond := respond;
    }

    /** `conn.cursor()`: a new cursor with nothing executed yet. */
    method NewCursor() returns (c: Cursor)
      ensures fresh(c) && c.conn == this && c.Valid()
      ensures c.description.None? && c.rowcount.None? && c.Remaining() == []
    {
      c := new Cursor(this);
    }
  }

  class Cursor {
    const conn: Connection
    var description: Option<seq<ColumnDesc>>
    var rowcount: Option<int>
    var rows: seq<Row>
    var pos: nat

    ghost predicate Valid()
      reads this
    {
      pos <= |rows|
    }

    /** The rows not yet fetched. */
    function Remaining(): seq<Row>
      reads this
      requires Valid()
    {
      rows[pos..]
    }

    constructor (conn: Connection)
      ensures this.conn == conn && Valid()
      ensures description.None? && rowcount.None? && Remaining() == []
    {
      this.conn := conn;
      description, rowcount, rows, pos := None, None, [], 0;
    }

    /**
     * `cursor.execute(sql, params)`: replaces the cursor's result with the backend's answer, or
     * reports the backend's error and leaves no result.
     */
    method Execute(sql: string, params: Option<seq<string>>) returns (err: Option<Error>)
      modifies this
      ensures Valid()
      ensures conn.respond(Statement(sql, params)).Raised? ==>
        err == Some(QueryFailure(conn.respond(Statement(sql, params)).message)) &&
        description.None? && rowcount.None? && Remaining() == []
      ensures conn.respond(Statement(sql, params)).Answer? ==>
        err.None? &&
        description == conn.respond(Statement(sql, params)).description &&
        rowcount == conn.respond(Statement(sql, params)).rowcount &&
        Remaining() == conn.respond(Statement(sql, params)).rows
    {
      match conn.respond(Statement(sql, params))
      case Raised(message) =>
        err := Some(QueryFailure(message));
        description, rowcount, rows, pos := None, None, [], 0;
      case Answer(desc, result, count) =>
        err := None;
        description, rowcount, rows, pos := desc, count, result, 0;
    }

    /** `cursor.fetchmany(n)`: the next `n` rows, or all that are left when fewer remain. */
    method FetchMany(n: nat) returns (batch: seq<Row>)
      requires Valid()
      modifies this`pos
      ensures Valid()
      ensures |batch| == if n < |old(Remaining())| then n else |old(Remaining())|
      ensures batch == old(Remaining())[..|batch|]
      ensures Remaining() == old(Remaining())[|batch|..]
    {
      var end := if pos + n < |rows| then pos + n else |rows|;
      batch := rows[pos..end];
      pos := end;
    }

    /** `cursor.fetchall()`: every row not yet fetched. */
    method FetchAll() returns (batch: seq<Row>)
      requires Valid()
      modifies this`pos
      ensures Valid()
      ensures batch == old(Remaining()) && Remaining() == []
    {
      batch := rows[pos..];
      pos := |rows|;
    }
  }
}
