/** The records `list_tables` and `get_table_structure` build from catalog rows. */
module Records {
  import opened Wrappers
  import opened Text
  import opened Values

  /** A row of `information_schema.TABLES`; the nullable columns are options. */
  datatype TableRow = TableRow(
    name: string, tableType: string, engine: Option<string>, tableRows: Option<int>,
    dataLength: Option<int>, indexLength: Option<int>, createTime: Option<string>, updateTime: Option<string>)

  /** A row of `information_schema.COLUMNS`; only the default may be NULL. */
  datatype ColumnRow = ColumnRow(
    name: string, columnType: string, isNullable: string, key: string,
    default: Option<string>, extra: string, comment: string)

  /** A row of the grouped `information_schema.STATISTICS` query: the member columns
      of the index comma-joined in their order within the index. */
  datatype IndexRow = IndexRow(name: string, nonUnique: int, columns: string)

  /** `if value.Valid { r[key] = value.String }`: the key is set only for a
      non-NULL value; every other key is left alone. */
  function SetText(r: Record, key: string, value: Option<string>): (r': Record)
    ensures key in r' <==> key in r || value.Some?
    ensures value.Some? ==> r'[key] == Str(value.value)
    ensures value.None? ==> r' == r
  {
    if value.Some? then r[key := Str(value.value)] else r
  }

  /** `if value.Valid { r[key] = value.Int64 }`. */
  function SetInt(r: Record, key: string, value: Option<int>): (r': Record)
    ensures key in r' <==> key in r || value.Some?
    ensures value.Some? ==> r'[key] == Int(value.value)
    ensures value.None? ==> r' == r
  {
    if value.Some? then r[key := Int(value.value)] else r
  }

  /** The sparse table record: name and type always; every other field only when the
      catalog value is not NULL, and never as an explicit null. */
  function TableRecord(row: TableRow): Record
  {
    var r0 := map["name" := Str(row.name), "type" := Str(row.tableType)];
    var r1 := SetText(r0, "engine", row.engine);
    var r2 := SetInt(r1, "rows", row.tableRows);
    var r3 := SetInt(r2, "data_size", row.dataLength);
    var r4 := SetInt(r3, "index_size", row.indexLength);
    var r5 := SetText(r4, "created_at", row.createTime);
    SetText(r5, "updated_at", row.updateTime)
  }

  /** Name and type are always present; the engine and the row estimate only when
      the catalog has them. */
  lemma TableRecordNameTypeEngineRows(row: TableRow)
    ensures var r := TableRecord(row);
            && "name" in r && r["name"] == Str(row.name)
            && "type" in r && r["type"] == Str(row.tableType)
            && ("engine" in r <==> row.engine.Some?)
            && (row.engine.Some? ==> r["engine"] == Str(row.engine.value))
            && ("rows" in r <==> row.tableRows.Some?)
            && (row.tableRows.Some? ==> r["rows"] == Int(row.tableRows.value))
  {
    var r0 := map["name" := Str(row.name), "type" := Str(row.tableType)];
    var r1 := SetText(r0, "engine", row.engine);
    var r2 := SetInt(r1, "rows", row.tableRows);
    var r3 := SetInt(r2, "data_size", row.dataLength);
    var r4 := SetInt(r3, "index_size", row.indexLength);
    var r5 := SetText(r4, "created_at", row.createTime);
    var r6 := SetText(r5, "updated_at", row.updateTime);
    assert r6 == TableRecord(row);
    assert "name" in r2 && "type" in r2 && r2["name"] == Str(row.name) && r2["type"] == Str(row.tableType);
    assert ("engine" in r2 <==> row.engine.Some?) && (row.engine.Some? ==> r2["engine"] == Str(row.engine.value));
  }

  /** The sizes and times follow the same rule: present exactly when not NULL. */
  lemma TableRecordSizesAndTimes(row: TableRow)
    ensures var r := TableRecord(row);
            && ("data_size" in r <==> row.dataLength.Some?)
            && (row.dataLength.Some? ==> r["data_size"] == Int(row.dataLength.value))
            && ("index_size" in r <==> row.indexLength.Some?)
            && (row.indexLength.Some? ==> r["index_size"] == Int(row.indexLength.value))
            && ("created_at" in r <==> row.createTime.Some?)
            && (row.createTime.Some? ==> r["created_at"] == Str(row.createTime.value))
            && ("updated_at" in r <==> row.updateTime.Some?)
            && (row.updateTime.Some? ==> r["updated_at"] == Str(row.updateTime.value))
  {
    var r0 := map["name" := Str(row.name), "type" := Str(row.tableType)];
    var r1 := SetText(r0, "engine", row.engine);
    var r2 := SetInt(r1, "rows", row.tableRows);
    var r3 := SetInt(r2, "data_size", row.dataLength);
    var r4 := SetInt(r3, "index_size", row.indexLength);
    var r5 := SetText(r4, "created_at", row.createTime);
    var r6 := SetText(r5, "updated_at", row.updateTime);
    assert r6 == TableRecord(row);
    assert "data_size" !in r2;
    assert "index_size" !in r3;
    assert "created_at" !in r4;
    assert "updated_at" !in r5;
  }

  predicate NoNulls(r: Record) {
    forall k :: k in r ==> r[k] != Null
  }

  /** The table record has only the eight known fields and never holds an explicit
      null: a NULL in the catalog leaves its field out. */
  lemma TableRecordIsSparse(row: TableRow)
    ensures TableRecord(row).Keys <= {"name", "type", "engine", "rows", "data_size", "index_size", "created_at", "updated_at"}
    ensures NoNulls(TableRecord(row))
  {
    var r0 := map["name" := Str(row.name), "type" := Str(row.tableType)];
    var r1 := SetText(r0, "engine", row.engine);
    var r2 := SetInt(r1, "rows", row.tableRows);
    var r3 := SetInt(r2, "data_size", row.dataLength);
    var r4 := SetInt(r3, "index_size", row.indexLength);
    var r5 := SetText(r4, "created_at", row.createTime);
    var r6 := SetText(r5, "updated_at", row.updateTime);
    assert r6 == TableRecord(row);
    assert r1.Keys <= r0.Keys + {"engine"} && NoNulls(r1);
    assert r2.Keys <= r1.Keys + {"rows"} && NoNulls(r2);
    assert r3.Keys <= r2.Keys + {"data_size"} && NoNulls(r3);
    assert r4.Keys <= r3.Keys + {"index_size"} && NoNulls(r4);
    assert r5.Keys <= r4.Keys + {"created_at"} && NoNulls(r5);
    assert r6.Keys <= r5.Keys + {"updated_at"} && NoNulls(r6);
  }

  /** The column record: `nullable` is true exactly for the catalog's "YES"; `default`
      appears exactly when the default is not NULL, `comment` exactly when it is not
      empty. */
  function ColumnRecord(row: ColumnRow): (r: Record)
    ensures r.Keys == {"name", "type", "nullable", "key", "extra"}
                      + (if row.default.Some? then {"default"} else {})
                      + (if row.comment != "" then {"comment"} else {})
    ensures r["name"] == Str(row.name) && r["type"] == Str(row.columnType)
    ensures r["nullable"] == Bool(row.isNullable == "YES")
    ensures r["key"] == Str(row.key) && r["extra"] == Str(row.extra)
    ensures row.default.Some? ==> r["default"] == Str(row.default.value)
    ensures row.comment != "" ==> r["comment"] == Str(row.comment)
  {
    var r := map["name" := Str(row.name), "type" := Str(row.columnType), "nullable" := Bool(row.isNullable == "YES"),
                 "key" := Str(row.key), "extra" := Str(row.extra)];
    var r' := SetText(r, "default", row.default);
    if row.comment != "" then r'["comment" := Str(row.comment)] else r'
  }

  /** The index record: `unique` exactly when the non-unique flag is 0, and the
      column list split at the commas; joined again with "," it is the catalog's
      list, and no piece holds a comma. */
  function IndexRecord(row: IndexRow): (r: Record)
    ensures r.Keys == {"name", "unique", "columns"}
    ensures r["name"] == Str(row.name)
    ensures r["unique"] == Bool(row.nonUnique == 0)
    ensures r["columns"].StrList? && |r["columns"].items| >= 1
    ensures Join(r["columns"].items, ",") == row.columns
    ensures forall k :: 0 <= k < |r["columns"].items| ==> ',' !in r["columns"].items[k]
  {
    JoinSplit(row.columns, ',');
    map["name" := Str(row.name), "unique" := Bool(row.nonUnique == 0),
        "columns" := StrList(Split(row.columns, ','))]
  }

  /** The member columns keep their order within the index, not their lexical order:
      "b,a" gives ["b", "a"]. */
  lemma IndexColumnsKeepIndexOrder()
    ensures IndexRecord(IndexRow("idx_a", 1, "b,a"))["columns"] == StrList(["b", "a"])
  {
    SplitJoin(["b", "a"], ',');
    assert Join(["b", "a"], [',']) == "b,a";
  }
}
