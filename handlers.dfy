/**
 * The six tool handlers. The database is an input: each handler receives what the
 * driver would answer to each statement it sends (a failure message, or the rows of
 * a cursor, each row scanned or rejected) and reports its result together with the
 * statements it sent, in order.
 */
module Handlers {
  import opened Wrappers
  import opened Text
  import opened Values
  import opened Arguments
  import opened Paging
  import opened QueryGuard
  import opened Statements
  import opened Search
  import opened Scanning
  import opened Records

  datatype SchemaPage = SchemaPage(schemas: seq<string>, page: int, pageSize: int, totalCount: int, totalPages: int)

  datatype TablePage = TablePage(
    schema: string, tables: seq<Record>, page: int, pageSize: int, totalCount: int, totalPages: int)

  datatype TableCreate = TableCreate(schema: string, table: string, createStatement: string)

  datatype QueryRows = QueryRows(columns: seq<string>, rows: seq<Record>, count: int)

  datatype SearchRows = SearchRows(
    schema: string, table: string, searchTerm: string, columns: seq<string>, rows: seq<Record>, count: int)

  datatype TableStructure = TableStructure(schema: string, table: string, columns: seq<Record>, indexes: seq<Record>)

  /** A generic cursor: the column names the driver reports (or the error it gives
      when asked for them) and its rows of cells. */
  datatype ResultSet = ResultSet(columns: Result<seq<string>, string>, rows: Rows<seq<Value>>)

  const GuardMessage: string := "only SELECT, SHOW, DESCRIBE, and EXPLAIN statements are allowed"
  const NoSearchableColumns: string := "no searchable columns found in table"

  /** The page number requested, 1 when none is given. */
  function RequestedPage(args: Args): int {
    GetInt(args, "page", 1)
  }

  /** The page size used: the requested one (20 when none is given), capped at 100. */
  function RequestedPageSize(args: Args): int {
    ClampPageSize(GetInt(args, "page_size", DefaultPageSize))
  }

  /** `list_schemas`: a count, then one page of schema names in name order. */
  method ListSchemas(args: Args, count: Result<int, string>, listing: Result<Rows<string>, string>)
    returns (out: Outcome<SchemaPage>)
    ensures out.result.Success? ==> out.result.value.pageSize <= MaxPageSize
    ensures var page, size := RequestedPage(args), RequestedPageSize(args);
            var counting := Statement(CountSchemasQuery, []);
            out.issued == if count.Failure? then [counting]
                          else [counting, Statement(ListSchemasQuery, [PInt(size), PInt(Offset(page, size))])]
    ensures count.Failure? ==> out.result == Failure(Wrapped("failed to get schema count", count.error))
    ensures count.Success? && listing.Failure? ==>
              out.result == Failure(Wrapped("failed to list schemas", listing.error))
    ensures count.Success? && listing.Success? && Collected(listing.value, Itself).Failure? ==>
              out.result == Failure(Wrapped("failed to scan schema", Collected(listing.value, Itself).error))
    ensures count.Success? && listing.Success? && Collected(listing.value, Itself).Success? ==>
              var page, size := RequestedPage(args), RequestedPageSize(args);
              out.result == match TotalPages(count.value, size)
                            case Failure(e) => Failure(e)
                            case Success(pages) =>
                              Success(SchemaPage(Collected(listing.value, Itself).value, page, size, count.value, pages))
  {
    var page := GetInt(args, "page", 1);
    var pageSize := GetInt(args, "page_size", DefaultPageSize);
    if pageSize > MaxPageSize {
      pageSize := MaxPageSize;
    }
    var offset := (page - 1) * pageSize;

    var issued := [Statement(CountSchemasQuery, [])];
    if count.Failure? {
      return Outcome(Failure(Wrapped("failed to get schema count", count.error)), issued);
    }
    var totalCount := count.value;

    issued := issued + [Statement(ListSchemasQuery, [PInt(pageSize), PInt(offset)])];
    if listing.Failure? {
      return Outcome(Failure(Wrapped("failed to list schemas", listing.error)), issued);
    }
    var schemas := CollectRows(listing.value, Itself);
    if schemas.Failure? {
      return Outcome(Failure(Wrapped("failed to scan schema", schemas.error)), issued);
    }

    if pageSize == 0 {
      return Outcome(Failure(DivideByZero), issued);
    }
    var totalPages := GoDiv(totalCount + pageSize - 1, pageSize);
    out := Outcome(Success(SchemaPage(schemas.value, page, pageSize, totalCount, totalPages)), issued);
  }

  /** Page 2 of size 1 over the schemas a, b and c: JSON numbers arrive as floats, the
      database answers the count with 3 and the page with the single row "b". */
  method ListSchemasSecondPage() returns (out: Outcome<SchemaPage>)
    ensures out.issued == [Statement(CountSchemasQuery, []), Statement(ListSchemasQuery, [PInt(1), PInt(1)])]
    ensures out.result == Success(SchemaPage(["b"], 2, 1, 3, 3))
  {
    var args := map["page" := ArgFloat(2.0), "page_size" := ArgFloat(1.0)];
    assert GetInt(args, "page", 1) == 2 && GetInt(args, "page_size", DefaultPageSize) == 1;
    var rows: Rows<string> := [Success("b")];
    assert Collected(rows, Itself) == Success(["b"]) by {
      assert rows[1..] == [] && Collected(rows[1..], Itself) == Success([]);
      PrependAppend(["b"], [], Success([]));
    }
    TotalPagesIsCeiling(3, 1);
    out := ListSchemas(args, Success(3), Success(rows));
  }

  /** `list_tables`: the schema is required; then a count and one page of sparse
      table records in name order. */
  method ListTables(args: Args, count: Result<int, string>, listing: Result<Rows<TableRow>, string>)
    returns (out: Outcome<TablePage>)
    ensures out.result.Success? ==> out.result.value.pageSize <= MaxPageSize
    ensures RequiredString(args, "schema").Failure? ==>
              out == Outcome(Failure(Missing("schema")), [])
    ensures RequiredString(args, "schema").Success? ==>
              var schema, page, size := RequiredString(args, "schema").value, RequestedPage(args), RequestedPageSize(args);
              var counting := Statement(CountTablesQuery, [PStr(schema)]);
              && out.issued == (if count.Failure? then [counting]
                                else [counting, Statement(ListTablesQuery, [PStr(schema), PInt(size), PInt(Offset(page, size))])])
              && (count.Failure? ==> out.result == Failure(Wrapped("failed to get table count", count.error)))
              && (count.Success? && listing.Failure? ==>
                    out.result == Failure(Wrapped("failed to list tables", listing.error)))
              && (count.Success? && listing.Success? ==>
                    out.result == match Collected(listing.value, TableRecord)
                                  case Failure(e) => Failure(Wrapped("failed to scan table info", e))
                                  case Success(tables) =>
                                    match TotalPages(count.value, size)
                                    case Failure(e) => Failure(e)
                                    case Success(pages) =>
                                      Success(TablePage(schema, tables, page, size, count.value, pages)))
  {
    var schemaArg := RequiredString(args, "schema");
    if schemaArg.Failure? {
      return Outcome(Failure(schemaArg.error), []);
    }
    var schema := schemaArg.value;

    var page := GetInt(args, "page", 1);
    var pageSize := GetInt(args, "page_size", DefaultPageSize);
    if pageSize > MaxPageSize {
      pageSize := MaxPageSize;
    }
    var offset := (page - 1) * pageSize;

    var issued := [Statement(CountTablesQuery, [PStr(schema)])];
    if count.Failure? {
      return Outcome(Failure(Wrapped("failed to get table count", count.error)), issued);
    }
    var totalCount := count.value;

    issued := issued + [Statement(ListTablesQuery, [PStr(schema), PInt(pageSize), PInt(offset)])];
    if listing.Failure? {
      return Outcome(Failure(Wrapped("failed to list tables", listing.error)), issued);
    }
    var tables := CollectRows(listing.value, TableRecord);
    if tables.Failure? {
      return Outcome(Failure(Wrapped("failed to scan table info", tables.error)), issued);
    }

    if pageSize == 0 {
      return Outcome(Failure(DivideByZero), issued);
    }
    var totalPages := GoDiv(totalCount + pageSize - 1, pageSize);
    out := Outcome(Success(TablePage(schema, tables.value, page, pageSize, totalCount, totalPages)), issued);
  }

  /** `get_table_create`: schema and table are required and are written into
      `SHOW CREATE TABLE` verbatim; the second column of the answer is the result. */
  method GetTableCreate(args: Args, answer: Result<(string, string), string>) returns (out: Outcome<TableCreate>)
    ensures RequiredString(args, "schema").Failure? ==>
              out == Outcome(Failure(Missing("schema")), [])
    ensures RequiredString(args, "schema").Success? && RequiredString(args, "table").Failure? ==>
              out == Outcome(Failure(Missing("table")), [])
    ensures RequiredString(args, "schema").Success? && RequiredString(args, "table").Success? ==>
              var schema, table := RequiredString(args, "schema").value, RequiredString(args, "table").value;
              && out.issued == [Statement(ShowCreateTable(schema, table), [])]
              && out.result == match answer
                               case Failure(e) => Failure(Wrapped("failed to get create statement", e))
                               case Success(row) => Success(TableCreate(schema, table, row.1))
  {
    var schemaArg := RequiredString(args, "schema");
    if schemaArg.Failure? {
      return Outcome(Failure(schemaArg.error), []);
    }
    var tableArg := RequiredString(args, "table");
    if tableArg.Failure? {
      return Outcome(Failure(tableArg.error), []);
    }
    var schema, table := schemaArg.value, tableArg.value;

    var issued := [Statement(ShowCreateTable(schema, table), [])];
    if answer.Failure? {
      return Outcome(Failure(Wrapped("failed to get create statement", answer.error)), issued);
    }
    var (_, createStatement) := answer.value;
    out := Outcome(Success(TableCreate(schema, table, createStatement)), issued);
  }

  /** `execute_query`: the query is required and must pass the read-only guard before
      anything is sent; a SELECT without LIMIT gets one appended. */
  method ExecuteQuery(args: Args, answer: Result<ResultSet, string>) returns (out: Outcome<QueryRows>)
    ensures RequiredString(args, "query").Failure? ==>
              out == Outcome(Failure(Missing("query")), [])
    ensures RequiredString(args, "query").Success? && !IsReadOnlyStatement(RequiredString(args, "query").value) ==>
              out == Outcome(Failure(Validation(GuardMessage)), [])
    ensures forall st :: st in out.issued ==> IsReadOnlyStatement(st.text)
    ensures RequiredString(args, "query").Success? && IsReadOnlyStatement(RequiredString(args, "query").value) ==>
              var query := RequiredString(args, "query").value;
              && out.issued == [Statement(WithLimit(query, GetInt(args, "limit", DefaultLimit)), [])]
              && out.result == match answer
                               case Failure(e) => Failure(Wrapped("failed to execute query", e))
                               case Success(rs) =>
                                 match rs.columns
                                 case Failure(e) => Failure(Wrapped("failed to get columns", e))
                                 case Success(columns) =>
                                   match NormalizedRows(columns, rs.rows)
                                   case Failure(e) => Failure(Wrapped("failed to scan row", e))
                                   case Success(records) => Success(QueryRows(columns, records, |records|))
  {
    var queryArg := RequiredString(args, "query");
    if queryArg.Failure? {
      return Outcome(Failure(queryArg.error), []);
    }
    var query := queryArg.value;

    var trimmed := TrimSpace(ToUpper(query));
    if !HasPrefix(trimmed, "SELECT") && !HasPrefix(trimmed, "SHOW")
       && !HasPrefix(trimmed, "DESCRIBE") && !HasPrefix(trimmed, "EXPLAIN") {
      return Outcome(Failure(Validation(GuardMessage)), []);
    }

    var limit := GetInt(args, "limit", DefaultLimit);
    WithLimitKeepsGuard(query, limit);
    if HasPrefix(trimmed, "SELECT") && !Contains(trimmed, "LIMIT") {
      query := query + " LIMIT " + Decimal(limit);
    }

    var issued := [Statement(query, [])];
    if answer.Failure? {
      return Outcome(Failure(Wrapped("failed to execute query", answer.error)), issued);
    }
    if answer.value.columns.Failure? {
      return Outcome(Failure(Wrapped("failed to get columns", answer.value.columns.error)), issued);
    }
    var columns := answer.value.columns.value;
    var results := ScanRows(columns, answer.value.rows);
    if results.Failure? {
      return Outcome(Failure(Wrapped("failed to scan row", results.error)), issued);
    }
    out := Outcome(Success(QueryRows(columns, results.value, |results.value|)), issued);
  }

  /** `search_table`: schema, table and search term are required. The catalog query
      is sent first; with no text-like column the search fails, otherwise one
      `LIKE ?` clause per such column is sent with the wildcarded term bound once per
      clause, and the rows come back keyed by every catalog column. */
  method SearchTable(args: Args, catalog: Result<Rows<CatalogColumn>, string>, found: Result<Rows<seq<Value>>, string>)
    returns (out: Outcome<SearchRows>)
    ensures RequiredString(args, "schema").Failure? ==>
              out == Outcome(Failure(Missing("schema")), [])
    ensures RequiredString(args, "schema").Success? && RequiredString(args, "table").Failure? ==>
              out == Outcome(Failure(Missing("table")), [])
    ensures RequiredString(args, "schema").Success? && RequiredString(args, "table").Success? &&
            RequiredString(args, "search_term").Failure? ==>
              out == Outcome(Failure(Missing("search_term")), [])
    ensures RequiredString(args, "schema").Success? && RequiredString(args, "table").Success? &&
            RequiredString(args, "search_term").Success? ==>
              var schema, table := RequiredString(args, "schema").value, RequiredString(args, "table").value;
              var term := RequiredString(args, "search_term").value;
              var columnQuery := Statement(SearchColumnsQuery, [PStr(schema), PStr(table)]);
              && |out.issued| >= 1 && out.issued[0] == columnQuery
              && (catalog.Failure? ==>
                    out == Outcome(Failure(Wrapped("failed to get columns", catalog.error)), [columnQuery]))
              && (catalog.Success? && Collected(catalog.value, Itself).Failure? ==>
                    out == Outcome(Failure(Wrapped("failed to scan column", Collected(catalog.value, Itself).error)),
                                   [columnQuery]))
              && (catalog.Success? && Collected(catalog.value, Itself).Success? ==>
                    var columns := Collected(catalog.value, Itself).value;
                    var clauses := SearchableClauses(columns);
                    && (clauses == [] ==> out == Outcome(Failure(Validation(NoSearchableColumns)), [columnQuery]))
                    && (clauses != [] ==>
                          && |out.issued| == 2
                          && out.issued[1].text == SearchQuery(schema, table, clauses, GetInt(args, "limit", DefaultLimit))
                          && |out.issued[1].params| == |clauses|
                          && (forall i :: 0 <= i < |clauses| ==> out.issued[1].params[i] == PStr(SearchPattern(term)))
                          && out.result == match found
                                           case Failure(e) => Failure(Wrapped("failed to search table", e))
                                           case Success(rows) =>
                                             match NormalizedRows(Names(columns), rows)
                                             case Failure(e) => Failure(Wrapped("failed to scan row", e))
                                             case Success(records) =>
                                               Success(SearchRows(schema, table, term, Names(columns), records, |records|))))
  {
    var schemaArg := RequiredString(args, "schema");
    if schemaArg.Failure? {
      return Outcome(Failure(schemaArg.error), []);
    }
    var tableArg := RequiredString(args, "table");
    if tableArg.Failure? {
      return Outcome(Failure(tableArg.error), []);
    }
    var termArg := RequiredString(args, "search_term");
    if termArg.Failure? {
      return Outcome(Failure(termArg.error), []);
    }
    var schema, table, term := schemaArg.value, tableArg.value, termArg.value;
    var limit := GetInt(args, "limit", DefaultLimit);

    var issued := [Statement(SearchColumnsQuery, [PStr(schema), PStr(table)])];
    if catalog.Failure? {
      return Outcome(Failure(Wrapped("failed to get columns", catalog.error)), issued);
    }
    CollectedMeaning(catalog.value, Itself);
    var collected := CollectColumns(catalog.value);
    if collected.Failure? {
      return Outcome(Failure(Wrapped("failed to scan column", collected.error)), issued);
    }
    var (columns, clauses) := collected.value;
    ghost var catalogColumns := Collected(catalog.value, Itself).value;
    assert catalogColumns == seq(|catalog.value|, k requires 0 <= k < |catalog.value| && catalog.value[k].Success? =>
                                   catalog.value[k].value);
    if |clauses| == 0 {
      return Outcome(Failure(Validation(NoSearchableColumns)), issued);
    }

    var whereClause := Join(clauses, " OR ");
    var searchQuery := "SELECT * FROM " + Quoted(schema) + "." + Quoted(table) + " WHERE " + whereClause
                       + " LIMIT " + Decimal(limit);
    var params := BindPatterns(|clauses|, SearchPattern(term));

    issued := issued + [Statement(searchQuery, params)];
    if found.Failure? {
      return Outcome(Failure(Wrapped("failed to search table", found.error)), issued);
    }
    var results := ScanRows(columns, found.value);
    if results.Failure? {
      return Outcome(Failure(Wrapped("failed to scan row", results.error)), issued);
    }
    out := Outcome(Success(SearchRows(schema, table, term, columns, results.value, |results.value|)), issued);
  }

  /** `get_table_structure`: schema and table are required; the column records in
      ordinal order, then the index records. */
  method GetTableStructure(args: Args, columnRows: Result<Rows<ColumnRow>, string>,
                           indexRows: Result<Rows<IndexRow>, string>)
    returns (out: Outcome<TableStructure>)
    ensures RequiredString(args, "schema").Failure? ==>
              out == Outcome(Failure(Missing("schema")), [])
    ensures RequiredString(args, "schema").Success? && RequiredString(args, "table").Failure? ==>
              out == Outcome(Failure(Missing("table")), [])
    ensures RequiredString(args, "schema").Success? && RequiredString(args, "table").Success? ==>
              var schema, table := RequiredString(args, "schema").value, RequiredString(args, "table").value;
              var columnQuery := Statement(StructureColumnsQuery, [PStr(schema), PStr(table)]);
              var indexQuery := Statement(IndexesQuery, [PStr(schema), PStr(table)]);
              && (columnRows.Failure? ==>
                    out == Outcome(Failure(Wrapped("failed to get columns", columnRows.error)), [columnQuery]))
              && (columnRows.Success? && Collected(columnRows.value, ColumnRecord).Failure? ==>
                    out == Outcome(Failure(Wrapped("failed to scan column", Collected(columnRows.value, ColumnRecord).error)),
                                   [columnQuery]))
              && (columnRows.Success? && Collected(columnRows.value, ColumnRecord).Success? ==>
                    && out.issued == [columnQuery, indexQuery]
                    && out.result == match indexRows
                                     case Failure(e) => Failure(Wrapped("failed to get indexes", e))
                                     case Success(rows) =>
                                       match Collected(rows, IndexRecord)
                                       case Failure(e) => Failure(Wrapped("failed to scan index", e))
                                       case Success(indexes) =>
                                         Success(TableStructure(schema, table, Collected(columnRows.value, ColumnRecord).value, indexes)))
  {
    var schemaArg := RequiredString(args, "schema");
    if schemaArg.Failure? {
      return Outcome(Failure(schemaArg.error), []);
    }
    var tableArg := RequiredString(args, "table");
    if tableArg.Failure? {
      return Outcome(Failure(tableArg.error), []);
    }
    var schema, table := schemaArg.value, tableArg.value;

    var issued := [Statement(StructureColumnsQuery, [PStr(schema), PStr(table)])];
    if columnRows.Failure? {
      return Outcome(Failure(Wrapped("failed to get columns", columnRows.error)), issued);
    }
    var columns := CollectRows(columnRows.value, ColumnRecord);
    if columns.Failure? {
      return Outcome(Failure(Wrapped("failed to scan column", columns.error)), issued);
    }

    issued := issued + [Statement(IndexesQuery, [PStr(schema), PStr(table)])];
    if indexRows.Failure? {
      return Outcome(Failure(Wrapped("failed to get indexes", indexRows.error)), issued);
    }
    var indexes := CollectRows(indexRows.value, IndexRecord);
    if indexes.Failure? {
      return Outcome(Failure(Wrapped("failed to scan index", indexes.error)), issued);
    }
    out := Outcome(Success(TableStructure(schema, table, columns.value, indexes.value)), issued);
  }
}
