/**
 * Reading a cursor: the typed loops that turn each scanned row into a record, and
 * the generic loop of `execute_query` and `search_table` that scans every row into
 * one reused buffer of cells and turns it into a record keyed by column name.
 */
module Scanning {
  import opened Wrappers
  import opened Text
  import opened Values

  /** The value itself; the shape of a cursor whose rows are kept as they are. */
  function Itself<T>(x: T): T {
    x
  }

  /** Row `k` is the first row `Scan` rejected. */
  predicate FirstFailureAt<T>(rows: Rows<T>, k: int) {
    0 <= k < |rows| && rows[k].Failure? && forall j :: 0 <= j < k ==> rows[j].Success?
  }

  function Prepend<U>(done: seq<U>, rest: Result<seq<U>, string>): Result<seq<U>, string> {
    match rest
    case Success(more) => Success(done + more)
    case Failure(e) => Failure(e)
  }

  lemma PrependAppend<U>(done: seq<U>, more: seq<U>, rest: Result<seq<U>, string>)
    ensures Prepend(done, Prepend(more, rest)) == Prepend(done + more, rest)
    ensures Prepend([], rest) == rest
    ensures Prepend(done, Success([])) == Success(done)
  {
    match rest
    case Success(tail) =>
      assert done + (more + tail) == (done + more) + tail;
      assert [] + tail == tail;
      assert done + [] == done;
    case Failure(_) =>
      assert done + [] == done;
  }

  /** Every row shaped in cursor order, or the first `Scan` error. */
  function Collected<T, U>(rows: Rows<T>, shape: T -> U): Result<seq<U>, string> {
    if |rows| == 0 then Success([])
    else
      match rows[0]
      case Failure(e) => Failure(e)
      case Success(v) => Prepend([shape(v)], Collected(rows[1..], shape))
  }

  /** A cursor is read in full when no row fails, one record per row in order;
      otherwise the result is the error of the first failing row. */
  lemma {:induction false} CollectedMeaning<T, U>(rows: Rows<T>, shape: T -> U)
    ensures (forall k :: 0 <= k < |rows| ==> rows[k].Success?) <==> Collected(rows, shape).Success?
    ensures Collected(rows, shape).Success? ==>
              |Collected(rows, shape).value| == |rows| &&
              forall k :: 0 <= k < |rows| ==> Collected(rows, shape).value[k] == shape(rows[k].value)
    ensures forall k :: FirstFailureAt(rows, k) ==> Collected(rows, shape) == Failure(rows[k].error)
  {
    if |rows| > 0 {
      CollectedMeaning(rows[1..], shape);
      forall k | FirstFailureAt(rows, k) && k > 0
        ensures FirstFailureAt(rows[1..], k - 1)
      {
      }
    }
  }

  /** The loop of `list_schemas`, `list_tables` and `get_table_structure`: append the
      shaped row while `rows.Next()` holds; stop at the first `Scan` error. */
  method CollectRows<T, U>(rows: Rows<T>, shape: T -> U) returns (r: Result<seq<U>, string>)
    ensures r == Collected(rows, shape)
  {
    var done: seq<U> := [];
    var k := 0;
    assert rows[0..] == rows;
    PrependAppend(done, done, Collected(rows, shape));
    while k < |rows|
      invariant 0 <= k <= |rows|
      invariant Collected(rows, shape) == Prepend(done, Collected(rows[k..], shape))
    {
      assert rows[k..][1..] == rows[k + 1..];
      match rows[k]
      case Failure(e) =>
        return Failure(e);
      case Success(v) =>
        PrependAppend(done, [shape(v)], Collected(rows[k + 1..], shape));
        done := done + [shape(v)];
      k := k + 1;
    }
    assert rows[k..] == [];
    PrependAppend(done, done, Success([]));
    return Success(done);
  }

  /** `string(b)`: the bytes of a `[]byte` cell read as text, byte for byte. */
  function AsString(bytes: seq<byte>): (s: string)
    ensures |s| == |bytes|
    ensures forall i :: 0 <= i < |bytes| ==> s[i] as int == bytes[i] as int
  {
    seq(|bytes|, i requires 0 <= i < |bytes| => (bytes[i] as int) as char)
  }

  predicate IsByteText(s: string) {
    forall i :: 0 <= i < |s| ==> s[i] as int < 256
  }

  /** `[]byte(s)`: a byte string back to its bytes. */
  function AsBytes(s: string): (bytes: seq<byte>)
    requires IsByteText(s)
    ensures |bytes| == |s|
  {
    seq(|s|, i requires 0 <= i < |s| => (s[i] as int) as byte)
  }

  /** The byte-to-text conversion loses nothing: it has an inverse in both directions. */
  lemma AsStringRoundTrip(bytes: seq<byte>, s: string)
    ensures IsByteText(AsString(bytes)) && AsBytes(AsString(bytes)) == bytes
    ensures IsByteText(s) ==> AsString(AsBytes(s)) == s
  {
  }

  /** A `[]byte` cell becomes the string of the same bytes; every other cell is kept. */
  function NormalizeCell(v: Value): (r: Value)
    ensures !r.Bytes?
    ensures v.Bytes? ==> r.Str? && |r.s| == |v.bytes| &&
                         forall i :: 0 <= i < |r.s| ==> r.s[i] as int == v.bytes[i] as int
    ensures !v.Bytes? ==> r == v
  {
    if v.Bytes? then Str(AsString(v.bytes)) else v
  }

  /** The record of one row: column `i` set to cell `i` in column order, so a later
      column of the same name overwrites an earlier one. */
  function NormalizeRow(columns: seq<string>, cells: seq<Value>): Record
    requires |cells| == |columns|
  {
    if |columns| == 0 then map[]
    else
      var n := |columns| - 1;
      NormalizeRow(columns[..n], cells[..n])[columns[n] := NormalizeCell(cells[n])]
  }

  /** The record's keys are exactly the column names. */
  lemma {:induction false} NormalizeRowKeys(columns: seq<string>, cells: seq<Value>)
    requires |cells| == |columns|
    ensures NormalizeRow(columns, cells).Keys == set c | c in columns
  {
    if |columns| > 0 {
      var n := |columns| - 1;
      NormalizeRowKeys(columns[..n], cells[..n]);
      assert columns == columns[..n] + [columns[n]];
    }
  }

  /** Each name holds the normalised cell of its last column, so with distinct names
      column `i` holds cell `i`. */
  lemma {:induction false} NormalizeRowValues(columns: seq<string>, cells: seq<Value>, i: int)
    requires |cells| == |columns| && 0 <= i < |columns|
    requires forall j :: i < j < |columns| ==> columns[j] != columns[i]
    ensures columns[i] in NormalizeRow(columns, cells)
    ensures NormalizeRow(columns, cells)[columns[i]] == NormalizeCell(cells[i])
  {
    var n := |columns| - 1;
    if i < n {
      NormalizeRowValues(columns[..n], cells[..n], i);
    }
  }

  /** No value of a normalised record is left as bytes. */
  lemma {:induction false} NormalizeRowHasNoBytes(columns: seq<string>, cells: seq<Value>)
    requires |cells| == |columns|
    ensures forall c :: c in NormalizeRow(columns, cells) ==> !NormalizeRow(columns, cells)[c].Bytes?
  {
    if |columns| > 0 {
      var n := |columns| - 1;
      NormalizeRowHasNoBytes(columns[..n], cells[..n]);
    }
  }

  /** `Scan` into one destination per expected column: a row with another number of
      cells is rejected with the message of `database/sql`. */
  function ScanRow(columns: seq<string>, row: Result<seq<Value>, string>): (r: Result<Record, string>)
    ensures r.Success? <==> row.Success? && |row.value| == |columns|
  {
    match row
    case Failure(e) => Failure(e)
    case Success(cells) =>
      if |cells| != |columns| then
        Failure("sql: expected " + Decimal(|cells|) + " destination arguments in Scan, not " + Decimal(|columns|))
      else Success(NormalizeRow(columns, cells))
  }

  /** Every row of a generic cursor as a record, or the first scan error. */
  function NormalizedRows(columns: seq<string>, rows: Rows<seq<Value>>): Result<seq<Record>, string> {
    if |rows| == 0 then Success([])
    else
      match ScanRow(columns, rows[0])
      case Failure(e) => Failure(e)
      case Success(record) => Prepend([record], NormalizedRows(columns, rows[1..]))
  }

  /** A generic cursor is read in full when every row scans, with one record per row
      (so the handlers' `count` is the number of rows); otherwise the first error wins. */
  lemma {:induction false} NormalizedRowsMeaning(columns: seq<string>, rows: Rows<seq<Value>>)
    ensures (forall k :: 0 <= k < |rows| ==> ScanRow(columns, rows[k]).Success?) <==>
              NormalizedRows(columns, rows).Success?
    ensures NormalizedRows(columns, rows).Success? ==>
              |NormalizedRows(columns, rows).value| == |rows| &&
              forall k :: 0 <= k < |rows| ==>
                NormalizedRows(columns, rows).value[k] == NormalizeRow(columns, rows[k].value)
    ensures forall k :: 0 <= k < |rows| && ScanRow(columns, rows[k]).Failure? &&
                        (forall j :: 0 <= j < k ==> ScanRow(columns, rows[j]).Success?) ==>
              NormalizedRows(columns, rows) == Failure(ScanRow(columns, rows[k]).error)
  {
    if |rows| > 0 {
      NormalizedRowsMeaning(columns, rows[1..]);
      forall k | 0 < k < |rows| && ScanRow(columns, rows[k]).Failure? &&
                 (forall j :: 0 <= j < k ==> ScanRow(columns, rows[j]).Success?)
        ensures NormalizedRows(columns, rows) == Failure(ScanRow(columns, rows[k]).error)
      {
        assert ScanRow(columns, rows[0]).Success?;
        assert rows[1..][k - 1] == rows[k];
        assert forall j :: 0 <= j < k - 1 ==> ScanRow(columns, rows[1..][j]).Success? by {
          forall j | 0 <= j < k - 1 ensures ScanRow(columns, rows[1..][j]).Success? {
            assert rows[1..][j] == rows[j + 1];
          }
        }
      }
    }
  }

  /** `rows.Scan(valuePtrs...)`: each cell of the row lands in its slot of the buffer. */
  method ScanInto(values: array<Value>, cells: seq<Value>)
    requires values.Length == |cells|
    modifies values
    ensures values[..] == cells
  {
    for i := 0 to |cells|
      invariant values[..i] == cells[..i]
    {
      values[i] := cells[i];
    }
  }

  /** A fresh record from the scanned buffer: each column name set to its cell, with
      `[]byte` turned into text. */
  method RecordFromBuffer(columns: seq<string>, values: array<Value>) returns (record: Record)
    requires values.Length == |columns|
    ensures record == NormalizeRow(columns, values[..])
  {
    record := map[];
    for i := 0 to |columns|
      invariant record == NormalizeRow(columns[..i], values[..i])
    {
      assert columns[..i + 1][..i] == columns[..i] && values[..i + 1][..i] == values[..i];
      record := record[columns[i] := NormalizeCell(values[i])];
    }
    assert columns[..|columns|] == columns && values[..|columns|] == values[..];
  }

  /** The generic loop: for each row, `Scan` fills the one `values` buffer in place,
      then a fresh record is built from the buffer and appended. */
  method ScanRows(columns: seq<string>, rows: Rows<seq<Value>>) returns (r: Result<seq<Record>, string>)
    ensures r == NormalizedRows(columns, rows)
  {
    var values := new Value[|columns|](_ => Null);
    var results: seq<Record> := [];
    var k := 0;
    assert rows[0..] == rows;
    PrependAppend(results, results, NormalizedRows(columns, rows));
    while k < |rows|
      invariant 0 <= k <= |rows|
      invariant NormalizedRows(columns, rows) == Prepend(results, NormalizedRows(columns, rows[k..]))
    {
      assert rows[k..][1..] == rows[k + 1..];
      match rows[k]
      case Failure(e) =>
        return Failure(e);
      case Success(cells) =>
        if |cells| != |columns| {
          return Failure("sql: expected " + Decimal(|cells|) + " destination arguments in Scan, not "
                         + Decimal(|columns|));
        }
        ScanInto(values, cells);
        var record := RecordFromBuffer(columns, values);
        PrependAppend(results, [record], NormalizedRows(columns, rows[k + 1..]));
        results := results + [record];
      k := k + 1;
    }
    assert rows[k..] == [];
    PrependAppend(results, results, Success([]));
    return Success(results);
  }
}
