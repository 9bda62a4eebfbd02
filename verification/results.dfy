/**
 * How the adapter turns fetched rows into its records: projections such as `[row[1] for row in rows]`
 * (which raise IndexError on a short row), the primary-key merge of `get_columns`, and the
 * deduplicated, sorted procedure names of `get_procedures`.
 */
module Results {
  import opened Outcomes
  import opened Driver
  import opened Ordering

  datatype TableInfo = TableInfo(schema: string, name: string)
  datatype ColumnInfo = ColumnInfo(name: string, dataType: string, isPrimaryKey: bool)
  datatype SequenceInfo = SequenceInfo(name: string)
  datatype IndexInfo = IndexInfo(name: string)
  datatype TriggerInfo = TriggerInfo(name: string)

  /** Every row has a cell at index `i`. */
  predicate AllHave(rows: seq<Row>, i: nat) {
    forall k :: 0 <= k < |rows| ==> i < |rows[k]|
  }

  /** `[row[i] for row in rows]`. */
  function Cells(rows: seq<Row>, i: nat): (r: Result<seq<string>, Error>)
    ensures r.Success? <==> AllHave(rows, i)
    ensures r.Failure? ==> r.error == IndexError
    ensures r.Success? ==> |r.value| == |rows| && forall k :: 0 <= k < |rows| ==> r.value[k] == rows[k][i]
  {
    if rows == [] then Success([])
    else if |rows[0]| <= i then Failure(IndexError)
    else
      match Cells(rows[1..], i)
      case Failure(e) => Failure(e)
      case Success(rest) => Success([rows[0][i]] + rest)
  }

  /** `[(row[0], row[1]) for row in rows]`: one (schema, name) pair per row, in order. */
  function Tables(rows: seq<Row>): (r: Result<seq<TableInfo>, Error>)
    ensures r.Success? <==> AllHave(rows, 1)
    ensures r.Failure? ==> r.error == IndexError
    ensures r.Success? ==>
      |r.value| == |rows| && forall k :: 0 <= k < |rows| ==> r.value[k] == TableInfo(rows[k][0], rows[k][1])
  {
    if rows == [] then Success([])
    else if |rows[0]| < 2 then Failure(IndexError)
    else
      match Tables(rows[1..])
      case Failure(e) => Failure(e)
      case Success(rest) => Success([TableInfo(rows[0][0], rows[0][1])] + rest)
  }

  /** `[SequenceInfo(name=row[0]) for row in rows]`. */
  function Sequences(rows: seq<Row>): (r: Result<seq<SequenceInfo>, Error>)
    ensures r.Success? <==> AllHave(rows, 0)
    ensures r.Failure? ==> r.error == IndexError
    ensures r.Success? ==>
      |r.value| == |rows| && forall k :: 0 <= k < |rows| ==> r.value[k] == SequenceInfo(rows[k][0])
  {
    match Cells(rows, 0)
    case Failure(e) => Failure(e)
    case Success(names) => Success(seq(|names|, k requires 0 <= k < |names| => SequenceInfo(names[k])))
  }

  /** Some row of `keyRows` names `column` in its first cell. */
  predicate KeyListed(keyRows: seq<Row>, column: string) {
    exists j :: 0 <= j < |keyRows| && |keyRows[j]| > 0 && keyRows[j][0] == column
  }

  /** The column list with each column tagged by membership in `keys`. */
  function TagColumns(rows: seq<Row>, keys: set<string>): (r: Result<seq<ColumnInfo>, Error>)
    ensures r.Success? <==> AllHave(rows, 1)
    ensures r.Failure? ==> r.error == IndexError
    ensures r.Success? ==> |r.value| == |rows| && forall k :: 0 <= k < |rows| ==>
      r.value[k] == ColumnInfo(rows[k][0], rows[k][1], rows[k][0] in keys)
  {
    if rows == [] then Success([])
    else if |rows[0]| < 2 then Failure(IndexError)
    else
      match TagColumns(rows[1..], keys)
      case Failure(e) => Failure(e)
      case Success(rest) => Success([ColumnInfo(rows[0][0], rows[0][1], rows[0][0] in keys)] + rest)
  }

  /**
   * The merge in `get_columns`: one ColumnInfo per row of the column query, in its order, flagged
   * as a primary key exactly when the key query listed that column's name.
   */
  function MergePrimaryKeys(columnRows: seq<Row>, keyRows: seq<Row>): (r: Result<seq<ColumnInfo>, Error>)
    ensures r.Success? <==> AllHave(keyRows, 0) && AllHave(columnRows, 1)
    ensures r.Failure? ==> r.error == IndexError
    ensures r.Success? ==> |r.value| == |columnRows| && forall k :: 0 <= k < |columnRows| ==>
      r.value[k].name == columnRows[k][0] && r.value[k].dataType == columnRows[k][1] &&
      (r.value[k].isPrimaryKey <==> KeyListed(keyRows, columnRows[k][0]))
  {
    match Cells(keyRows, 0)
    case Failure(e) => Failure(e)
    case Success(keys) =>
      var r := TagColumns(columnRows, set k | k in keys);
      assert r.Success? ==> forall k :: 0 <= k < |columnRows| ==>
        (r.value[k].isPrimaryKey <==> KeyListed(keyRows, columnRows[k][0])) by {
        if r.Success? {
          forall k | 0 <= k < |columnRows|
            ensures r.value[k].isPrimaryKey <==> KeyListed(keyRows, columnRows[k][0])
          {
            if columnRows[k][0] in keys {
              var j :| 0 <= j < |keys| && keys[j] == columnRows[k][0];
              assert keyRows[j][0] == columnRows[k][0];
            }
          }
        }
      }
      r
  }

  /** The key flags depend only on which names the key query returned, not on their order or repetition. */
  lemma MergeIgnoresKeyOrder(columnRows: seq<Row>, keyRows1: seq<Row>, keyRows2: seq<Row>)
    requires AllHave(keyRows1, 0) && AllHave(keyRows2, 0)
    requires forall c :: KeyListed(keyRows1, c) <==> KeyListed(keyRows2, c)
    ensures MergePrimaryKeys(columnRows, keyRows1) == MergePrimaryKeys(columnRows, keyRows2)
  {
    var r1, r2 := MergePrimaryKeys(columnRows, keyRows1), MergePrimaryKeys(columnRows, keyRows2);
    if r1.Success? {
      forall k | 0 <= k < |columnRows| ensures r1.value[k] == r2.value[k] {
        assert KeyListed(keyRows1, columnRows[k][0]) <==> KeyListed(keyRows2, columnRows[k][0]);
      }
      assert r1.value == r2.value;
    }
  }

  /** `sorted(list({row[0] for row in rows}))`. */
  function ProcedureNames(rows: seq<Row>): (r: Result<seq<string>, Error>)
    ensures r.Success? <==> AllHave(rows, 0)
    ensures r.Failure? ==> r.error == IndexError
    ensures r.Success? ==> StrictlyAscending(r.value)
    ensures r.Success? ==> forall y :: y in r.value <==> KeyListed(rows, y)
  {
    match Cells(rows, 0)
    case Failure(e) => Failure(e)
    case Success(names) =>
      var r := SortedUnique(names);
      assert forall y :: y in r <==> KeyListed(rows, y) by {
        forall y ensures y in r <==> KeyListed(rows, y) {
          if y in names {
            var k :| 0 <= k < |names| && names[k] == y;
            assert rows[k][0] == y;
          }
          if KeyListed(rows, y) {
            var k :| 0 <= k < |rows| && |rows[k]| > 0 && rows[k][0] == y;
            assert names[k] == y;
          }
        }
      }
      Success(r)
  }

  /** The procedure list depends only on the set of fetched names. */
  lemma ProcedureNamesOfSameSet(rows1: seq<Row>, rows2: seq<Row>)
    requires AllHave(rows1, 0) && AllHave(rows2, 0)
    requires forall y :: KeyListed(rows1, y) <==> KeyListed(rows2, y)
    ensures ProcedureNames(rows1) == ProcedureNames(rows2)
  {
    AscendingUnique(ProcedureNames(rows1).value, ProcedureNames(rows2).value);
  }
}
