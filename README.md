# go-mysql-mcp-server: the tool handlers, modelled in Dafny

The server exposes six MCP tools over a MySQL connection: `list_schemas`,
`list_tables`, `get_table_create`, `execute_query`, `search_table` and
`get_table_structure`. Each handler reads its arguments from the tool call's
argument map, builds one or two SQL statements and sends them. It then turns the
cursors it gets back into records, or stops at the first error.

This project models those handlers (`internal/handlers.go`) and the two constants
they share (`internal/server.go`). The database is an input. Each handler
receives:

- what the driver answers to each statement: either a failure message or a
  cursor;
- for a cursor, a sequence of rows, where each row is either scanned or
  rejected with the `Scan` error.

Each handler returns an `Outcome`: its result, plus the exact statements it sent,
in order, each with its bound parameters. The result is either a record or one
of three errors:

- `Validation`: a missing argument, the guard, or no searchable columns;
- `Execution`: a wrapped driver error, `"<context>: <cause>"` as `%w` prints it;
- `DivideByZero`: the runtime panic of `total_pages` at page size 0.

Modules, one per concern of the source:

| file | module | what it holds |
|---|---|---|
| wrappers.dfy | Wrappers | `Option` and `Result` |
| text.dfy | Text | Go's `strings` functions on byte strings: `ToUpper`, `ToLower`, `TrimSpace`, `HasPrefix`, `Contains`, `Join`, `Split`, and `%d` |
| values.dfy | Values | cell values, tool arguments, statements, errors and outcomes |
| arguments.dfy | Arguments | `getIntFromArgs` and the required-string check |
| paging.dfy | Paging | page-size clamp, offset and `total_pages` with Go's truncating division |
| query_guard.dfy | QueryGuard | the read-only guard and the `LIMIT` rewrite of `execute_query` |
| statements.dfy | Statements | every statement text, character for character, and the interpolated ones |
| search.dfy | Search | `isSearchableType`, the catalog loop and the parameter slice of `search_table` |
| scanning.dfy | Scanning | reading a cursor to its end, and the generic row loop with its reused buffer |
| records.dfy | Records | the sparse table, column and index records |
| handlers.dfy | Handlers | the six handlers as methods |

Each pure helper is a function, with lemmas about it. Each loop is a method with
invariants, proved equal to a specification function whose properties are proved
as lemmas. That covers:

- reading a typed cursor;
- the catalog loop of `search_table`;
- filling the parameter slice;
- scanning into the reused `values` buffer;
- building each row's map.

Three consequences of the code a reader might not expect:

- `page_size` is only capped at 100. A value of 0 or below is kept, not replaced
  by 20. With 0 the page total panics on division by zero, after both queries
  have been sent. A negative size is sent as a negative `LIMIT`.
- A missing argument fails before any statement is sent. The `search_table`
  error "no searchable columns found in table" comes later: after the catalog
  query has been sent and read.
- Identifiers and the search limit are written into the statement text verbatim,
  without escaping. `ShowCreateTableIsVerbatim`, `SearchQueryIsVerbatim`,
  `SearchFrontIsVerbatim` and `SearchTable`'s contract state this. No claim is made about SQL injection.

## Model

| member | source | states |
|---|---|---|
| Arguments.Truncate | internal/handlers.go:448-449 | `int(v)` of a float drops the fraction toward zero |
| Arguments.GetInt | internal/handlers.go:445-455 | a float argument is truncated toward zero, an int is returned as is, and the default is used when the key is absent or holds any other kind |
| Arguments.RequiredString | internal/handlers.go:61-64 | succeeds exactly when the argument is present, a string and non-empty, with that string; otherwise "<key> parameter is required" |
| Paging.ClampPageSize | internal/handlers.go:16-20 | the size never exceeds 100; a request of at most 100 is kept unchanged, including 0 and negatives; above 100 it becomes 100 |
| Paging.GoDiv | internal/handlers.go:53 | Go's `/` on `int`: the remainder is smaller than the divisor in magnitude and has the sign of the dividend |
| Paging.TotalPages | internal/handlers.go:53 | fails with a division by zero exactly when the page size is 0 |
| Paging.TotalPagesIsCeiling | internal/handlers.go:53 | for a count ≥ 0 and size ≥ 1, the page total t is the ceiling: (t-1)·size < count ≤ t·size; a count of 0 gives 0 pages; exact division gives count/size |
| Paging.CeilingIsUnique | internal/handlers.go:53 | only one page total satisfies the ceiling bounds |
| Paging.Offset | internal/handlers.go:22 | the first row of a page: the number of rows on all earlier pages, (page-1)·size |
| Paging.RowIsOnOnePage | internal/handlers.go:22 | with offset (page-1)·size, row k lies on page k/size+1 and on no other page |
| Paging.RowsFitInTotalPages | internal/handlers.go:22-53 | every counted row lies on a page between 1 and the page total |
| Paging.NegativePageSizeTruncates | internal/handlers.go:53 | a size of -3 over no rows gives 1 page under Go's truncating division, where Euclidean division would give 2 |
| QueryGuard.Normalized | internal/handlers.go:184 | the text the guard inspects, upper-cased and trimmed: never longer than the query, and empty or with no white space at either end |
| QueryGuard.IsReadOnlyStatement | internal/handlers.go:184-187 | the guard: the normalised text starts with SELECT, SHOW, DESCRIBE or EXPLAIN, with no word boundary required after the keyword |
| QueryGuard.WithLimit | internal/handlers.go:190-195 | the statement actually sent starts with the caller's text, which it keeps unchanged |
| QueryGuard.GuardIgnoresCase | internal/handlers.go:184-187 | lower- or upper-casing the query never changes the guard's verdict |
| QueryGuard.GuardIgnoresLeadingSpace | internal/handlers.go:184-187 | white space before the statement never changes the verdict |
| QueryGuard.GuardIsPrefixOnly | internal/handlers.go:185-186 | any text that starts with one of the four keywords passes, whatever follows, e.g. "SELECTX" or further statements |
| QueryGuard.NormalizedKeepsPrefix | internal/handlers.go:184-186 | text appended to a statement never changes the keyword its normalised form starts with |
| QueryGuard.WithLimitKeepsGuard | internal/handlers.go:184-195 | the rewritten statement passes the guard if and only if the caller's statement does |
| QueryGuard.AppendedLimitIsSeen | internal/handlers.go:193-194 | after " LIMIT …" is appended, the rewrite's own test finds LIMIT |
| QueryGuard.WithLimitAppendsExactly | internal/handlers.go:190-195 | a SELECT that mentions LIMIT in no casing gets exactly " LIMIT <n>" appended; every other statement is unchanged, whatever the limit |
| QueryGuard.WithLimitIdempotent | internal/handlers.go:193-195 | rewriting an already rewritten statement changes nothing, even with a different limit |
| Statements.ShowCreateTable | internal/handlers.go:161 | the `SHOW CREATE TABLE` statement with both identifiers interpolated between backticks |
| Statements.LikeClause | internal/handlers.go:287 | one disjunct "`name` LIKE ?" of the search condition |
| Statements.SearchQuery | internal/handlers.go:296-297 | the search statement: the clauses joined with " OR " after WHERE, the limit written as a literal |
| Statements.SearchQueryIsVerbatim | internal/handlers.go:296-297 | the search statement reads back as the front naming the table, the joined clauses exactly as given, then " LIMIT " and the limit's digits |
| Statements.SearchFrontIsVerbatim | internal/handlers.go:297 | in front of the condition come SELECT * FROM, then the schema and the table, each unchanged between backticks and joined by a dot, then WHERE |
| Statements.SearchPattern | internal/handlers.go:300 | the pattern is the search term between two `%` wildcards |
| Statements.ShowCreateTableIsVerbatim | internal/handlers.go:161 | the statement is SHOW CREATE TABLE, then the schema and the table, each unchanged between backticks and joined by a dot |
| Search.IsSearchableType | internal/handlers.go:465-478 | a column type is searchable when its lower-cased name contains one of the eight text markers |
| Search.SearchableClauses | internal/handlers.go:277-289 | one "`name` LIKE ?" clause per column of searchable type, in catalog order |
| Search.AnyMarkerInMeaning | internal/handlers.go:472-477 | the early-return loop answers true exactly when some marker occurs in the text |
| Search.SearchableMeansMarker | internal/handlers.go:465-478 | a type is searchable exactly when its lower-cased text contains one of the eight markers |
| Search.FourMarkersDecide | internal/handlers.go:466-469 | char, text, enum and set decide the question alone; varchar and the sized text types add nothing |
| Search.SearchableIgnoresCase | internal/handlers.go:471 | the answer is the same for the upper-cased type name |
| Search.SearchablePositionsAreExact | internal/handlers.go:277-289 | the searchable positions are in range, strictly increasing, and include a column exactly when its type is searchable |
| Search.SearchableClausesFollowPositions | internal/handlers.go:286-288 | one clause per searchable position, in order, each the column's "`name` LIKE ?" |
| Search.NoClausesIffNothingSearchable | internal/handlers.go:291-293 | the clause list is empty exactly when no column has a searchable type |
| Search.Names | internal/handlers.go:284 | the column list has every catalog column's name, in order |
| Search.CollectColumns | internal/handlers.go:277-289 | succeeds exactly when every catalog row scans, with all names and the clause list; otherwise returns the first failing row's error |
| Search.BindPatterns | internal/handlers.go:300-304 | one parameter per clause, each the same pattern |
| Scanning.PrependAppend | internal/handlers.go:39-46 | appending in two steps is appending once; appending nothing changes nothing |
| Scanning.CollectedMeaning | internal/handlers.go:39-46 | a cursor is read in full exactly when no row fails, with one shaped value per row in order; otherwise the result is the first failing row's error |
| Scanning.CollectRows | internal/handlers.go:39-46 | the `for rows.Next()` loop computes `Collected`: every row shaped in order, or the first scan error |
| Scanning.AsString | internal/handlers.go:226-227 | `string(b)` keeps the length and every byte value |
| Scanning.AsStringRoundTrip | internal/handlers.go:226-227 | bytes to string and back is the identity, and so is string to bytes and back |
| Scanning.NormalizeCell | internal/handlers.go:224-230 | no cell stays bytes; bytes become a string of equal content; every other value passes through unchanged |
| Scanning.NormalizeRowKeys | internal/handlers.go:223-231 | a row's record has exactly the column names as keys |
| Scanning.NormalizeRowValues | internal/handlers.go:223-231 | each name holds the normalised cell of its last column with that name |
| Scanning.NormalizeRowHasNoBytes | internal/handlers.go:223-231 | no value in a row's record is bytes |
| Scanning.Collected | internal/handlers.go:39-46 | every row of a typed cursor, shaped, or the error of the first row whose `Scan` fails |
| Scanning.NormalizeRow | internal/handlers.go:222-231 | the map of one row: each column name holds its cell, with bytes turned into text |
| Scanning.ScanRow | internal/handlers.go:213-220 | scanning a row succeeds exactly when the row arrived and has one cell per expected column |
| Scanning.NormalizedRows | internal/handlers.go:213-233 | every row of a generic cursor as a map, or the first scan error |
| Scanning.NormalizedRowsMeaning | internal/handlers.go:213-233 | all rows are read exactly when every row scans, one record per row, so `count` is the number of rows; otherwise the first error wins |
| Scanning.ScanInto | internal/handlers.go:214-221 | after `Scan`, the buffer holds the row's cells |
| Scanning.RecordFromBuffer | internal/handlers.go:223-231 | the map built from the buffer is the normalised record of the row |
| Scanning.ScanRows | internal/handlers.go:209-233 | the row loop, reusing one buffer, computes `NormalizedRows` |
| Records.TableRecord | internal/handlers.go:108-131 | the sparse map of one table: name and type, then each optional attribute only when it is non-NULL |
| Records.TableRecordNameTypeEngineRows | internal/handlers.go:108-131 | name and type are always present; engine and row count are present exactly when the catalog value is non-NULL, and then carry that value |
| Records.TableRecordSizesAndTimes | internal/handlers.go:108-131 | data and index size, creation and update time are present exactly when the catalog value is non-NULL, and then carry that value |
| Records.TableRecordIsSparse | internal/handlers.go:108-131 | a table record has no key outside the eight names and no NULL value |
| Records.ColumnRecord | internal/handlers.go:386-399 | exact key set; `nullable` is true exactly when the flag is "YES"; `default` is present when non-NULL and `comment` when non-empty |
| Records.IndexRecord | internal/handlers.go:426-430 | `unique` is true exactly when the non-unique flag is 0; `columns` is a non-empty list of comma-free names that joins back with "," to the catalog string |
| Records.IndexColumnsKeepIndexOrder | internal/handlers.go:429 | "b,a" becomes ["b", "a"]: the order within the index is kept, not sorted |
| Text.ToUpper | internal/handlers.go:184 | `strings.ToUpper` on ASCII: same length, each character upper-cased |
| Text.ToLower | internal/handlers.go:471 | `strings.ToLower` on ASCII: same length, each character lower-cased |
| Text.CaseFoldings | internal/handlers.go:184 | upper-casing after lower-casing is plain upper-casing, and the other way round |
| Text.TrimLeftMeaning | internal/handlers.go:184 | trimming the front removes exactly the leading white space: what remains is a suffix that is empty or starts with a non-space byte |
| Text.TrimRightMeaning | internal/handlers.go:184 | trimming the back removes exactly the trailing white space: what remains is a prefix that is empty or ends with a non-space byte |
| Text.TrimSpaceAfterBlank | internal/handlers.go:184 | white space put in front of a text does not change its trimmed form |
| Text.TrimSpaceKeepsPrefix | internal/handlers.go:184-186 | a text starting with a word without white space still starts with it after trimming |
| Text.TrimSpace | internal/handlers.go:184 | `strings.TrimSpace`: white space trimmed from the front, then from the back |
| Text.HasPrefix | internal/handlers.go:185-186 | `strings.HasPrefix`: the text begins with the prefix |
| Text.Contains | internal/handlers.go:193 | `strings.Contains`: the word occurs at some position of the text |
| Text.Join | internal/handlers.go:296 | `strings.Join`: the parts with the separator between consecutive ones |
| Text.Decimal | internal/handlers.go:194 | `%d`: a minus sign for a negative number, then the decimal digits of its magnitude |
| Text.ContainsTrimSpace | internal/handlers.go:193 | a word without spaces occurs in the trimmed text exactly when it occurs in the untrimmed text |
| Text.Split | internal/handlers.go:429 | `strings.Split` returns at least one part, and no part contains the separator |
| Text.JoinSplit | internal/handlers.go:429 | joining the parts of a split with the separator gives the original string |
| Text.SplitJoin | internal/handlers.go:429 | splitting a join of separator-free parts gives the parts back |
| Text.DigitsRoundTrip | internal/handlers.go:194 | the decimal digits of n read back as n |
| Text.DecimalShape | internal/handlers.go:194 | `%d` is non-empty and has no space; a minus sign precedes the digits of a negative number |
| Handlers.ListSchemas | internal/handlers.go:13-57 | sends the count, then the page query with (size, offset); each driver failure is wrapped with its context; the result is every row in order, the page, the clamped size, the count and `TotalPages`; the size is never above 100 |
| Handlers.ListSchemasSecondPage | internal/handlers.go:13-57 | page 2 of size 1 over three schemas sends LIMIT 1 OFFSET 1 and yields ["b"] with 3 pages |
| Handlers.ListTables | internal/handlers.go:59-145 | without a schema, fails sending nothing; otherwise behaves as list_schemas with the schema bound first, and each row becomes its sparse table record |
| Handlers.GetTableCreate | internal/handlers.go:147-174 | schema and then table are required before anything is sent; one `SHOW CREATE TABLE` with the names verbatim; the result is the second column of the answer |
| Handlers.ExecuteQuery | internal/handlers.go:176-242 | a missing query or a failed guard sends nothing; every statement sent passes the guard; the statement is the LIMIT rewrite; columns, then rows, are read, and `count` is the number of records |
| Handlers.SearchTable | internal/handlers.go:244-348 | the three arguments are required before anything is sent; the catalog query comes first; with no searchable column it fails after that query; otherwise the search statement has one clause per searchable column, the `%term%` pattern is bound once per clause, and rows are keyed by every catalog column |
| Handlers.GetTableStructure | internal/handlers.go:350-442 | schema and table are required; the column query, then the index query; each row becomes its column or index record, and each failure is wrapped with its context |

## Left out

- JSON encoding by `jsonResult`, and its marshalling error, is not modelled. Results stay as Dafny values. A handler that reads no rows returns an empty sequence where the JSON would hold `null`.
- Registering the tools with mcp-go, reading the environment, opening the connection, the stdio and HTTP transports, and the interactive loop are not part of this model (`internal/server.go`, `internal/http_server.go`, `internal/interactive.go`, `cmd/`).
- The MySQL driver is replaced by its answers, given as inputs. Several things come from those answers rather than being modelled:
  - which rows a statement returns;
  - how `Scan` converts a column into a Go type (a failed conversion is a row given as `Failure`);
  - `rows.Close`;
  - context cancellation.
- The handlers never call `rows.Err()`, so a cursor that stops early with an error is indistinguishable from a shorter cursor. The model's row sequence is whatever the cursor yields.
- Arguments.GetInt: Go's `int` is 64 bits wide, but here integers are unbounded. Overflow in `(page-1)*pageSize` and in `totalCount+pageSize-1` is not modelled. `int(v)` of a float outside the `int` range, or of NaN or an infinity, is also not modelled: arguments are real numbers.
- Handlers.ListSchemas: at page size 0, Go panics inside the handler. The model returns `DivideByZero` instead; what happens after the panic is not modelled.
- Text.ToUpper: Go strings are byte strings, one `char` per byte here. Case mapping is ASCII-only, so Unicode case mapping of multi-byte characters is not modelled.
- Text.TrimSpace: only ASCII white space (space and `\t` through `\r`) is trimmed. `strings.TrimSpace` also trims U+0085, U+00A0 and the other Unicode spaces.
- Handlers.ExecuteQuery: what MySQL does with the statement is left out. That covers several statements in one text, and the comments or keywords the guard's bare prefix test lets through; `GuardIsPrefixOnly` states what the guard accepts.
