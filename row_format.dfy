/**
  The row normaliser `_format_rows`: turns the records the query executor
  returns into plain dicts holding exactly a projection of columns, with
  every value other than a dict, a list or None turned into its `str()`.
*/
module RowFormat {
  import opened Wrappers
  import opened PyValues
  import opened Collect

  /** A driver record, read by column name (`row[col]`). */
  type Record = map<string, Value>

  /** One output dict: column name to normalised value, in insertion order. */
  type Item = seq<(string, Value)>

  /** Every projected column can be read from the record (`row[col]` raises otherwise). */
  predicate HasColumns(rec: Record, columns: seq<string>)
  {
    forall c :: c in columns ==> c in rec
  }

  /** No column is projected twice. */
  predicate Distinct(columns: seq<string>)
  {
    forall i, j :: 0 <= i < j < |columns| ==> columns[i] != columns[j]
  }

  /**
    The value rule: a dict or a list is kept as it is, None stays None, and
    any other value becomes the string `str()` gives for it.
  */
  function Normalize(v: Value): (r: Value)
    ensures r.Null? <==> v.Null?
    ensures r.Null? || r.Str? || r.List? || r.Dict?
    ensures (v.List? || v.Dict?) ==> r == v
    ensures !v.Null? && !v.List? && !v.Dict? ==> r == Str(PyStr(v))
  {
    if v.Dict? || v.List? then v
    else if v.Null? then Null
    else Str(PyStr(v))
  }

  /**
    The dict built for one record: `item[col] = ...` for each projected
    column in turn.  It maps exactly the projected columns, each to the
    normalised value of that column.
  */
  function FormatRow(rec: Record, columns: seq<string>): Item
    requires HasColumns(rec, columns)
  {
    if columns == [] then []
    else
      var col := columns[|columns| - 1];
      var init := columns[..|columns| - 1];
      assert columns == init + [col];
      Store(FormatRow(rec, init), col, Normalize(rec[col]))
  }

  /**
    The dict for one record maps exactly the projected columns, each to the
    normalised value of that column.
  */
  lemma {:induction false} FormatRowContents(rec: Record, columns: seq<string>, c: string)
    requires HasColumns(rec, columns)
    ensures c in Keys(FormatRow(rec, columns)) <==> c in columns
    ensures Lookup(FormatRow(rec, columns), c) == if c in columns then Some(Normalize(rec[c])) else None
  {
    if columns != [] {
      var col := columns[|columns| - 1];
      var init := columns[..|columns| - 1];
      assert columns == init + [col];
      FormatRowContents(rec, init, c);
    }
  }

  /** With no repeated column, the keys of the dict are the projection, in its order. */
  lemma {:induction false} FormatRowKeysInOrder(rec: Record, columns: seq<string>)
    requires HasColumns(rec, columns)
    requires Distinct(columns)
    ensures Keys(FormatRow(rec, columns)) == columns
  {
    if columns != [] {
      var col := columns[|columns| - 1];
      var init := columns[..|columns| - 1];
      assert columns == init + [col];
      FormatRowKeysInOrder(rec, init);
      assert col !in init;
    }
  }

  /** `FormatRow` for a fixed projection, as a function of the record. */
  function RowFormatter(columns: seq<string>): Record --> Item
  {
    rec requires HasColumns(rec, columns) => FormatRow(rec, columns)
  }

  /** The whole result: one dict per record, in record order. */
  function Formatted(rows: seq<Record>, columns: seq<string>): seq<Item>
    requires forall rec :: rec in rows ==> HasColumns(rec, columns)
  {
    Map(RowFormatter(columns), rows)
  }

  /**
    The inner loop of `_format_rows`: fill `item` one projected column at a
    time, applying the value rule.
  */
  method FormatRecord(row: Record, columns: seq<string>) returns (item: Item)
    requires HasColumns(row, columns)
    ensures item == FormatRow(row, columns)
  {
    item := [];
    for j := 0 to |columns|
      invariant HasColumns(row, columns[..j])
      invariant item == FormatRow(row, columns[..j])
    {
      var col := columns[j];
      assert columns[..j + 1][..j] == columns[..j];
      var val := row[col];
      if val.Dict? || val.List? {
        item := Store(item, col, val);
      } else {
        item := Store(item, col, if val.Null? then Null else Str(PyStr(val)));
      }
    }
    assert columns[..|columns|] == columns;
  }

  /** `_format_rows(rows, columns)`: one dict per record, appended in record order. */
  method FormatRows(rows: seq<Record>, columns: seq<string>) returns (results: seq<Item>)
    requires forall rec :: rec in rows ==> HasColumns(rec, columns)
    ensures results == Formatted(rows, columns)
  {
    results := [];
    for i := 0 to |rows|
      invariant results == Formatted(rows[..i], columns)
    {
      var item := FormatRecord(rows[i], columns);
      MapSnoc(RowFormatter(columns), rows, i);
      results := results + [item];
    }
    assert rows[..|rows|] == rows;
  }

  /**
    The shape of the result: as many dicts as records, and, for a projection
    without repeats, every dict has exactly the projected columns as keys in
    projection order, each holding that column's normalised value.
  */
  lemma FormattedShape(rows: seq<Record>, columns: seq<string>)
    requires forall rec :: rec in rows ==> HasColumns(rec, columns)
    requires Distinct(columns)
    ensures |Formatted(rows, columns)| == |rows|
    ensures forall i :: 0 <= i < |rows| ==> Keys(Formatted(rows, columns)[i]) == columns
    ensures forall i :: 0 <= i < |rows| ==> HasColumns(rows[i], columns)
    ensures forall i, c :: 0 <= i < |rows| && c in columns ==>
              Lookup(Formatted(rows, columns)[i], c) == Some(Normalize(rows[i][c]))
  {
    assert forall i :: 0 <= i < |rows| ==> rows[i] in rows;
    forall i | 0 <= i < |rows|
      ensures Keys(Formatted(rows, columns)[i]) == columns
    {
      FormatRowKeysInOrder(rows[i], columns);
    }
    forall i, c | 0 <= i < |rows| && c in columns
      ensures Lookup(Formatted(rows, columns)[i], c) == Some(Normalize(rows[i][c]))
    {
      FormatRowContents(rows[i], columns, c);
    }
  }
}
