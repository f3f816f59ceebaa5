/**
 * The spreadsheet worksheets the server appends to: the request log (`sheet1`) and the
 * appointment ledger (`Sheet2`). A worksheet is a sequence of rows; its first row is the
 * header row and every later row is one record, which is how `get_all_records` reads it.
 */
module Sheets {
  /**
   * One cell. `Time(t)` is a timestamp string that `datetime.fromisoformat` accepts, at
   * whole minute `t` (seconds are not modelled); `Text` is any other string; `Int` is a number.
   */
  datatype Value = Text(s: string) | Time(t: int) | Int(n: int)

  type Row = seq<Value>

  /** What `get_all_records` returns: every row after the header row. */
  function RecordsOf(rows: seq<Row>): (records: seq<Row>)
    ensures |records| == if |rows| <= 1 then 0 else |rows| - 1
    ensures forall i :: 0 <= i < |records| ==> records[i] == rows[i + 1]
  {
    if |rows| <= 1 then [] else rows[1..]
  }

  /**
   * The rows after the lazy-header append: `header` first when the sheet has no records,
   * then `row`. Nothing already in the sheet moves or changes.
   */
  function WithHeader(rows: seq<Row>, header: Row, row: Row): (r: seq<Row>)
    ensures |r| == |rows| + 2 <==> RecordsOf(rows) == []
    ensures |r| == |rows| + 1 <==> RecordsOf(rows) != []
    ensures r[..|rows|] == rows
    ensures r[|r| - 1] == row
    ensures RecordsOf(rows) == [] ==> r[|rows|] == header
  {
    if RecordsOf(rows) == [] then rows + [header, row] else rows + [row]
  }

  /** A sheet written only by lazy-header appends: empty, or `header` followed by the data rows. */
  function Table(header: Row, data: seq<Row>): seq<Row>
  {
    if data == [] then [] else [header] + data
  }

  /** The records of such a sheet are exactly its data rows. */
  lemma TableRecords(header: Row, data: seq<Row>)
    ensures RecordsOf(Table(header, data)) == data
  {
    if data != [] {
      assert Table(header, data)[1..] == data;
    }
  }

  /** Appending to a well-formed table keeps it well formed: one header, then the data rows in order. */
  lemma TableAppend(header: Row, data: seq<Row>, row: Row)
    ensures WithHeader(Table(header, data), header, row) == Table(header, data + [row])
  {
    TableRecords(header, data);
    if data == [] {
      assert Table(header, data + [row]) == [header, row];
    } else {
      assert Table(header, data) + [row] == [header] + (data + [row]);
    }
  }

  /**
   * The records after a lazy-header append gain `row` at the end. The one exception is a
   * sheet holding only a header row: `get_all_records` sees no records there, so a second
   * header is appended and becomes a record itself.
   */
  lemma WithHeaderRecords(rows: seq<Row>, header: Row, row: Row)
    ensures |rows| != 1 ==> RecordsOf(WithHeader(rows, header, row)) == RecordsOf(rows) + [row]
    ensures |rows| == 1 ==> RecordsOf(WithHeader(rows, header, row)) == [header, row]
  {
    var r := WithHeader(rows, header, row);
    if |rows| == 0 {
      assert r == [header, row];
    } else if |rows| == 1 {
      assert r == rows + [header, row];
      assert r[1..] == [header, row];
    } else {
      assert r == rows + [row];
      assert r[1..] == rows[1..] + [row];
    }
  }

  /** A worksheet handle; `append_row` changes it in place. */
  class Sheet {
    var rows: seq<Row>

    constructor (initial: seq<Row>)
      ensures rows == initial
    {
      rows := initial;
    }

    /** `get_all_records`. */
    function Records(): seq<Row>
      reads this
    {
      RecordsOf(rows)
    }

    /** `append_row`: the new row goes after every existing row. */
    method AppendRow(row: Row)
      modifies this
      ensures rows == old(rows) + [row]
    {
      rows := rows + [row];
    }
  }
}
