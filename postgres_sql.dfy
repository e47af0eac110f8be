/**
 * The PostgreSQL search query of Discovery/dbutils.py: `_quote`, `_quote_str`
 * and `get_search_sql`. The query text is modelled character for character,
 * template indentation included, as the concatenation of its pieces; the
 * method `GetSearchSql` builds it the way the source does, with loops and
 * appends, and is proved to give exactly that text.
 *
 * The builder splices every identifier into `"..."` as it is, without going
 * through `_quote`; `QuoteIdentPlain` states when the two agree.
 */
module PostgresSql {
  import opened Wrappers
  import opened Text
  import opened Wildcard

  // ---------------------------------------------------------------------------
  // Quoting helpers (Discovery/dbutils.py:64-71)
  // ---------------------------------------------------------------------------

  /** `_quote(identifier)`: a double-quoted SQL identifier. */
  function QuoteIdent(identifier: string): (q: string)
    ensures |q| >= |identifier| + 2 && q[0] == '"' && q[|q| - 1] == '"'
  {
    "\"" + Doubled(identifier, '"') + "\""
  }

  /** `_quote_str(txt)`: the body of a single-quoted SQL string literal. */
  function QuoteStr(txt: string): (q: string)
    ensures |q| >= |txt|
  {
    Doubled(txt, '\'')
  }

  /**
   * SQL reads a quoted identifier back as exactly the identifier that was
   * quoted, and stops at its closing quote, whatever the identifier holds.
   */
  lemma QuoteIdentReadsBack(identifier: string, rest: string)
    requires rest == [] || rest[0] != '"'
    ensures ReadQuoted(QuoteIdent(identifier)[1..] + rest, '"') == Some((identifier, rest))
  {
    assert QuoteIdent(identifier)[1..] + rest == Doubled(identifier, '"') + ['"'] + rest;
    ReadDoubled(identifier, '"', rest);
  }

  /** Likewise for a string literal `'...'` whose body is `_quote_str(txt)`. */
  lemma QuoteStrReadsBack(txt: string, rest: string)
    requires rest == [] || rest[0] != '\''
    ensures ReadQuoted(QuoteStr(txt) + "'" + rest, '\'') == Some((txt, rest))
  {
    ReadDoubled(txt, '\'', rest);
  }

  /** For a name without `"`, the builder's raw `"%s"` splice is what `_quote` would give. */
  lemma QuoteIdentPlain(identifier: string)
    requires '"' !in identifier
    ensures QuoteIdent(identifier) == "\"" + identifier + "\""
  {
    DoubledWithout(identifier, '"');
  }

  // ---------------------------------------------------------------------------
  // The pieces of the query (Discovery/dbutils.py:132-169)
  // ---------------------------------------------------------------------------

  /** The opening of the SELECT list: the geometry as WKT and its SRID. */
  function GeomColumns(geomColumn: string): string {
    " SELECT\n" + Spaces(24) + "ST_AsText(\"" + geomColumn + "\") AS geom,\n"
    + Spaces(24) + "ST_SRID(\"" + geomColumn + "\") AS epsg,\n" + Spaces(17)
  }

  /** The suggestion expression starts with the search column (echo on) or the empty literal `''`. */
  function SelectionStart(echo: bool, searchColumn: string): string {
    if echo then "\"" + searchColumn + "\"\n" + Spaces(38) else "''"
  }

  /** The separator of the first display clause: `', '` after the search column, nothing after `''`. */
  function FirstSeparator(echo: bool): string {
    if echo then ", " else ""
  }

  /** The separator of display clause `i`: every clause after the first uses `', '`. */
  function SeparatorAt(firstSep: string, i: nat): string {
    if i == 0 then firstSep else ", "
  }

  /** `|| CASE WHEN "c" IS NOT NULL THEN 'sep' || "c" ELSE '' END` for one display column. */
  function CaseClause(column: string, sep: string): string {
    " || CASE WHEN \"" + column + "\" IS NOT NULL THEN\n" + Spaces(53) + "'" + sep + "' || \"" + column + "\"\n"
    + Spaces(49) + "ELSE\n" + Spaces(53) + "''\n" + Spaces(49) + "END\n" + Spaces(43)
  }

  /** The CASE clauses for the columns, in list order: clause `i` is for column `i`, with `SeparatorAt(firstSep, i)`. */
  function ClauseList(columns: seq<string>, firstSep: string): (clauses: seq<string>)
    ensures |clauses| == |columns|
  {
    seq(|columns|, i requires 0 <= i < |columns| => CaseClause(columns[i], SeparatorAt(firstSep, i)))
  }

  /** The display columns the loop visits: none for an empty setting, else `display.split(',')`. */
  function DisplayList(display: string): seq<string> {
    if |display| > 0 then Split(display, ',') else []
  }

  /** The selection text, including the `"'', "` strip the source applies. */
  function Selection(echo: bool, searchColumn: string, display: string): string {
    var t := Appended(SelectionStart(echo, searchColumn), ClauseList(DisplayList(display), FirstSeparator(echo)))
             + " AS suggestion_string ";
    if "'', " <= t then t[4..] else t
  }

  /** One `, "c"` per extra expression column, in list order. */
  function ExtraList(extra: seq<string>): (items: seq<string>)
    ensures |items| == |extra|
  {
    seq(|extra|, k requires 0 <= k < |extra| => ", \"" + extra[k] + "\"")
  }

  /** The FROM and WHERE clauses, ending in the ILIKE on the search column. */
  function FromWhere(schema: string, table: string, searchColumn: string): string {
    "\n" + Spaces(18) + "FROM\n" + Spaces(24) + "\"" + schema + "\".\"" + table + "\"\n"
    + Spaces(21) + "WHERE\n" + Spaces(24) + "\"" + searchColumn + "\" ILIKE\n" + Spaces(18)
  }

  /** The named parameter the driver fills in from the dictionary. */
  function Placeholder(): string {
    "   %(search_text)s\n" + Spaces(18)
  }

  /** The closing ORDER BY and LIMIT. */
  function OrderLimit(searchColumn: string): string {
    "ORDER BY\n" + Spaces(24) + "\"" + searchColumn + "\"\n" + Spaces(20) + "LIMIT 1000\n" + Spaces(18)
  }

  /** What `get_search_sql` returns: the query text and the parameter dictionary. */
  datatype Query = Query(text: string, params: map<string, string>)

  /** The whole result of `get_search_sql`. */
  function SearchSql(searchText: string, geomColumn: string, searchColumn: string, echo: bool,
                     display: string, extra: seq<string>, schema: string, table: string): Query
  {
    Query(Appended(GeomColumns(geomColumn) + Selection(echo, searchColumn, display), ExtraList(extra))
          + FromWhere(schema, table, searchColumn) + Placeholder() + OrderLimit(searchColumn),
          map["search_text" := SearchPattern(searchText)])
  }

  // ---------------------------------------------------------------------------
  // The builder as the source writes it
  // ---------------------------------------------------------------------------

  /**
   * The display-column loop (Discovery/dbutils.py:143-151): one CASE clause
   * appended per column, the separator switching to `', '` after the first.
   */
  method AppendCaseClauses(start: string, columns: seq<string>, firstSep: string) returns (text: string)
    ensures text == Appended(start, ClauseList(columns, firstSep))
  {
    ghost var clauses := ClauseList(columns, firstSep);
    text := start;
    var sep := firstSep;
    for i := 0 to |columns|
      invariant text == Appended(start, clauses[..i])
      invariant sep == SeparatorAt(firstSep, i)
    {
      assert clauses[..i + 1][..i] == clauses[..i];
      assert clauses[i] == CaseClause(columns[i], sep);
      text := text + CaseClause(columns[i], sep);
      sep := ", ";
    }
    assert clauses[..|columns|] == clauses;
  }

  /**
   * The suggestion selection (Discovery/dbutils.py:136-154): the start and
   * first separator chosen by the echo flag, the display-column clauses,
   * then the alias and the prefix strip.
   */
  method BuildSelection(echo: bool, searchColumn: string, display: string) returns (selection: string)
    ensures selection == Selection(echo, searchColumn, display)
  {
    var sep: string;
    if echo {
      selection := "\"" + searchColumn + "\"\n" + Spaces(38);
      sep := ", ";
    } else {
      selection := "''";
      sep := "";
    }
    if |display| > 0 {
      selection := AppendCaseClauses(selection, Split(display, ','), sep);
    } else {
      assert ClauseList(DisplayList(display), sep) == [];
    }
    selection := selection + " AS suggestion_string ";
    if "'', " <= selection {
      selection := selection[4..];
    }
  }

  /** The extra-column loop (Discovery/dbutils.py:156-157): `, "c"` appended per column. */
  method AppendExtraColumns(head: string, extra: seq<string>) returns (text: string)
    ensures text == Appended(head, ExtraList(extra))
  {
    ghost var items := ExtraList(extra);
    text := head;
    for i := 0 to |extra|
      invariant text == Appended(head, items[..i])
    {
      assert items[..i + 1][..i] == items[..i];
      text := text + ", \"" + extra[i] + "\"";
    }
    assert items[..|extra|] == items;
  }

  /** `get_search_sql`: pattern, then the query text appended piece by piece. */
  method GetSearchSql(searchText: string, geomColumn: string, searchColumn: string, echo: bool,
                      display: string, extra: seq<string>, schema: string, table: string) returns (q: Query)
    ensures q == SearchSql(searchText, geomColumn, searchColumn, echo, display, extra, schema, table)
  {
    var pattern := BuildPattern(searchText);
    var queryDict := map["search_text" := pattern];
    var queryText := GeomColumns(geomColumn);
    var selection := BuildSelection(echo, searchColumn, display);
    queryText := queryText + selection;
    queryText := AppendExtraColumns(queryText, extra);
    queryText := queryText + FromWhere(schema, table, searchColumn);
    queryText := queryText + Placeholder();
    queryText := queryText + OrderLimit(searchColumn);
    q := Query(queryText, queryDict);
  }

  // ---------------------------------------------------------------------------
  // Properties of the query
  // ---------------------------------------------------------------------------

  lemma CaseClauseStart(column: string, sep: string)
    ensures " || " <= CaseClause(column, sep)
  {
    assert CaseClause(column, sep) == " || " + (CaseClause(column, sep)[4..]);
  }

  /**
   * The `"'', "` strip never fires: with echo off the selection begins `''`
   * followed by ` || CASE` or by ` AS`, never by `, `; with echo on it begins
   * with `"`. So the selection is the start, then each display column's CASE
   * clause in list order (the first with `FirstSeparator(echo)`, the others
   * with `', '`), then the alias, and nothing else.
   */
  lemma SelectionInOrder(echo: bool, searchColumn: string, display: string)
    ensures Selection(echo, searchColumn, display)
         == SelectionStart(echo, searchColumn) + Concat(ClauseList(DisplayList(display), FirstSeparator(echo)))
            + " AS suggestion_string "
  {
    var start := SelectionStart(echo, searchColumn);
    var clauses := ClauseList(DisplayList(display), FirstSeparator(echo));
    AppendedIsConcat(start, clauses);
    if clauses != [] {
      CaseClauseStart(DisplayList(display)[0], FirstSeparator(echo));
      assert Concat(clauses) == clauses[0] + Concat(clauses[1..]);
    }
    NotStripped(start, Concat(clauses));
  }

  lemma NotStripped(start: string, body: string)
    requires start == "''" || (start != [] && start[0] == '"')
    requires body == [] || body[0] == ' '
    ensures !("'', " <= start + body + " AS suggestion_string ")
  {
    var t := start + body + " AS suggestion_string ";
    if start == "''" {
      assert t[2] == ' ';
    } else {
      assert t[0] == '"';
    }
  }

  /** An empty display setting adds no CASE clause at all. */
  lemma EmptyDisplayNoClauses(echo: bool, searchColumn: string)
    ensures Selection(echo, searchColumn, "") == SelectionStart(echo, searchColumn) + " AS suggestion_string "
  {
    SelectionInOrder(echo, searchColumn, "");
    assert ClauseList(DisplayList(""), FirstSeparator(echo)) == [];
    assert SelectionStart(echo, searchColumn) + [] == SelectionStart(echo, searchColumn);
  }

  /**
   * The select list is geom, epsg, suggestion_string and then the extra
   * expression columns in list order, one `, "c"` each, so the result row
   * holds extra column `k` at position `3 + k`.
   */
  lemma ExtraColumnsFollowSuggestion(searchText: string, geomColumn: string, searchColumn: string, echo: bool,
                                     display: string, extra: seq<string>, schema: string, table: string)
    ensures SearchSql(searchText, geomColumn, searchColumn, echo, display, extra, schema, table).text
         == GeomColumns(geomColumn) + Selection(echo, searchColumn, display) + Concat(ExtraList(extra))
            + FromWhere(schema, table, searchColumn) + Placeholder() + OrderLimit(searchColumn)
  {
    AppendedIsConcat(GeomColumns(geomColumn) + Selection(echo, searchColumn, display), ExtraList(extra));
  }

  lemma PlaceholderHoldsParameter()
    ensures IsSubstring("%(search_text)s", Placeholder())
  {
    assert "%(search_text)s" <= Placeholder()[3..];
  }

  /**
   * The user's text never reaches the SQL text: two searches with the same
   * configuration give the same text, which holds the `%(search_text)s`
   * placeholder, and the pattern travels only as the dictionary's single
   * `search_text` entry. The text always ends with the ORDER BY on the
   * search column and `LIMIT 1000`.
   */
  lemma SearchTextOnlyInParameters(text1: string, text2: string, geomColumn: string, searchColumn: string,
                                   echo: bool, display: string, extra: seq<string>, schema: string, table: string)
    ensures var q1 := SearchSql(text1, geomColumn, searchColumn, echo, display, extra, schema, table);
            var q2 := SearchSql(text2, geomColumn, searchColumn, echo, display, extra, schema, table);
            && q1.text == q2.text
            && q1.params == map["search_text" := SearchPattern(text1)]
            && IsSubstring("%(search_text)s", q1.text)
            && q1.text[|q1.text| - |OrderLimit(searchColumn)|..] == OrderLimit(searchColumn)
  {
    var q1 := SearchSql(text1, geomColumn, searchColumn, echo, display, extra, schema, table);
    var before := Appended(GeomColumns(geomColumn) + Selection(echo, searchColumn, display), ExtraList(extra))
                  + FromWhere(schema, table, searchColumn);
    PlaceholderHoldsParameter();
    SubstringOfMiddle("%(search_text)s", before, Placeholder(), OrderLimit(searchColumn));
  }
}
