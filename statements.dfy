/**
 * The statement texts the handlers send. Catalog queries bind their arguments to
 * `?` placeholders; schema, table and column names and the search limit are
 * written into the text verbatim, without any escaping.
 */
module Statements {
  import opened Text
  import opened Values

  const CountSchemasQuery: string := "SELECT COUNT(*) FROM information_schema.SCHEMATA"

  const ListSchemasQuery: string :=
    "SELECT SCHEMA_NAME FROM information_schema.SCHEMATA ORDER BY SCHEMA_NAME LIMIT ? OFFSET ?"

  const CountTablesQuery: string := "SELECT COUNT(*) FROM information_schema.TABLES WHERE TABLE_SCHEMA = ?"

  const ListTablesQuery: string :=
    "\n\t\tSELECT TABLE_NAME, TABLE_TYPE, ENGINE, TABLE_ROWS, \n"
    + "\t\t       DATA_LENGTH, INDEX_LENGTH, CREATE_TIME, UPDATE_TIME\n"
    + "\t\tFROM information_schema.TABLES \n"
    + "\t\tWHERE TABLE_SCHEMA = ?\n"
    + "\t\tORDER BY TABLE_NAME \n"
    + "\t\tLIMIT ? OFFSET ?\n\t"

  const SearchColumnsQuery: string :=
    "\n\t\tSELECT COLUMN_NAME, DATA_TYPE \n"
    + "\t\tFROM information_schema.COLUMNS \n"
    + "\t\tWHERE TABLE_SCHEMA = ? AND TABLE_NAME = ?\n"
    + "\t\tORDER BY ORDINAL_POSITION\n\t"

  const StructureColumnsQuery: string :=
    "\n\t\tSELECT COLUMN_NAME, COLUMN_TYPE, IS_NULLABLE, COLUMN_KEY, \n"
    + "\t\t       COLUMN_DEFAULT, EXTRA, COLUMN_COMMENT\n"
    + "\t\tFROM information_schema.COLUMNS \n"
    + "\t\tWHERE TABLE_SCHEMA = ? AND TABLE_NAME = ?\n"
    + "\t\tORDER BY ORDINAL_POSITION\n\t"

  const IndexesQuery: string :=
    "\n\t\tSELECT INDEX_NAME, NON_UNIQUE, GROUP_CONCAT(COLUMN_NAME ORDER BY SEQ_IN_INDEX) as COLUMNS\n"
    + "\t\tFROM information_schema.STATISTICS\n"
    + "\t\tWHERE TABLE_SCHEMA = ? AND TABLE_NAME = ?\n"
    + "\t\tGROUP BY INDEX_NAME, NON_UNIQUE\n\t"

  /** An identifier between backticks, as given: a backtick inside it is not doubled. */
  function Quoted(identifier: string): string {
    "`" + identifier + "`"
  }

  /** `SHOW CREATE TABLE `schema`.`table``. */
  function ShowCreateTable(schema: string, table: string): string {
    "SHOW CREATE TABLE " + Quoted(schema) + "." + Quoted(table)
  }

  /** One disjunct of the search condition. */
  function LikeClause(column: string): string {
    Quoted(column) + " LIKE ?"
  }

  /** The search statement: every clause joined with " OR ", the limit as a literal. */
  function SearchQuery(schema: string, table: string, clauses: seq<string>, limit: int): string {
    SearchFront(schema, table) + Join(clauses, " OR ") + " LIMIT " + Decimal(limit)
  }

  /** `fmt.Sprintf("%%%s%%", term)`: the term between two `%` wildcards. */
  function SearchPattern(term: string): (pattern: string)
    ensures |pattern| == |term| + 2
    ensures pattern[0] == '%' && pattern[|pattern| - 1] == '%'
    ensures pattern[1..|pattern| - 1] == term
  {
    "%" + term + "%"
  }

  /** The identifiers reach the statement unchanged: `SHOW CREATE TABLE ` followed by
      the schema in backticks, a dot and the table in backticks, whatever they hold. */
  lemma ShowCreateTableIsVerbatim(schema: string, table: string)
    ensures var text := ShowCreateTable(schema, table);
            |text| == 23 + |schema| + |table| &&
            text[..19] == "SHOW CREATE TABLE `" &&
            text[19..19 + |schema|] == schema &&
            text[19 + |schema|..22 + |schema|] == "`.`" &&
            text[22 + |schema|..22 + |schema| + |table|] == table &&
            text[|text| - 1] == '`'
  {
  }

  /** The search statement reads back piece by piece: the front naming the table
      (see `SearchFrontIsVerbatim`), then the joined clauses, then " LIMIT " and the
      limit's digits, each exactly as given. */
  lemma {:induction false} SearchQueryIsVerbatim(schema: string, table: string, clauses: seq<string>, limit: int)
    ensures var text, front := SearchQuery(schema, table, clauses, limit), SearchFront(schema, table);
            var condition := Join(clauses, " OR ");
            var f, w := |front|, |condition|;
            |text| == f + w + 7 + |Decimal(limit)| &&
            text[..f] == front &&
            text[f..f + w] == condition &&
            text[f + w..] == " LIMIT " + Decimal(limit)
  {
    var front := SearchFront(schema, table);
    var condition, tail := Join(clauses, " OR "), " LIMIT " + Decimal(limit);
    assert SearchQuery(schema, table, clauses, limit) == front + condition + tail;
    SlicesOfConcat(front, condition, tail);
  }

  /** The part of the search statement in front of the condition: the schema and the
      table between backticks, as given. */
  function SearchFront(schema: string, table: string): string {
    "SELECT * FROM " + Quoted(schema) + "." + Quoted(table) + " WHERE "
  }

  lemma {:induction false} SearchFrontIsVerbatim(schema: string, table: string)
    ensures var front, s, t := SearchFront(schema, table), |schema|, |table|;
            |front| == 26 + s + t &&
            front[..15] == "SELECT * FROM `" &&
            front[15..15 + s] == schema &&
            front[15 + s..18 + s] == "`.`" &&
            front[18 + s..18 + s + t] == table &&
            front[18 + s + t..] == "` WHERE "
  {
  }

  lemma {:induction false} SlicesOfConcat(a: string, b: string, c: string)
    ensures (a + b + c)[..|a|] == a
    ensures (a + b + c)[|a|..|a| + |b|] == b
    ensures (a + b + c)[|a| + |b|..] == c
  {
  }
}
