/**
 * The Oracle search query and connection string of Discovery/oracle_utils.py.
 * The suggestion selection and the extra columns are the PostgreSQL builder's
 * own text (Discovery/oracle_utils.py:131-152 repeats Discovery/dbutils.py:136-157
 * line for line), so they are taken from `PostgresSql`; what differs is the
 * geometry functions, the table alias `S`, the case-folded LIKE on a string
 * literal instead of a bound parameter, and the `ROWNUM` limit.
 */
module OracleSql {
  import opened Wrappers
  import opened Text
  import opened Wildcard
  import PostgresSql

  // ---------------------------------------------------------------------------
  // The pieces of the query (Discovery/oracle_utils.py:126-166)
  // ---------------------------------------------------------------------------

  /** The geometry as WKT, and its SRID read through the table alias `S`. */
  function GeomColumns(geomColumn: string): string {
    " SELECT\n" + Spaces(24) + "SDO_UTIL.TO_WKTGEOMETRY(\"" + geomColumn + "\") AS geom,\n"
    + Spaces(24) + "S.\"" + geomColumn + "\".\"SDO_SRID\" AS epsg,\n" + Spaces(17)
  }

  /** FROM the aliased table, WHERE the lower-cased search column is LIKE ... */
  function FromWhere(schema: string, table: string, searchColumn: string): string {
    "\n" + Spaces(18) + "FROM\n" + Spaces(24) + "\"" + schema + "\".\"" + table + "\" S\n"
    + Spaces(21) + "WHERE\n" + Spaces(24) + "LOWER(\"" + searchColumn + "\") LIKE\n" + Spaces(18)
  }

  /** The pattern spliced as it is between the quotes of a string literal. */
  function PatternLiteral(pattern: string): string {
    "   LOWER('" + pattern + "')\n\t" + Spaces(14)
  }

  /**
   * The limit text: `int(limit)` in decimal when `is_number(limit)` holds,
   * otherwise "1000". The argument carries both verdicts: None when
   * `is_number` rejects the setting, `Some(int(limit))` when it accepts it.
   */
  function LimitText(limit: Option<int>): string {
    match limit
    case None => "1000"
    case Some(n) => IntToString(n)
  }

  function RowLimit(limit: Option<int>): string {
    "AND ROWNUM <= " + LimitText(limit)
  }

  function OrderBy(searchColumn: string): string {
    "ORDER BY\n" + Spaces(28) + "\"" + searchColumn + "\"\n" + Spaces(22)
  }

  /** Everything up to and including the pattern literal. */
  function QueryHead(searchText: string, geomColumn: string, searchColumn: string, echo: bool,
                     display: string, extra: seq<string>, schema: string, table: string): string
  {
    Appended(GeomColumns(geomColumn) + PostgresSql.Selection(echo, searchColumn, display), PostgresSql.ExtraList(extra))
    + FromWhere(schema, table, searchColumn) + PatternLiteral(SearchPattern(searchText))
  }

  /** The text `get_search_sql` returns; the parameter dictionary it also builds is dropped. */
  function SearchSql(searchText: string, geomColumn: string, searchColumn: string, echo: bool,
                     display: string, extra: seq<string>, schema: string, table: string, limit: Option<int>): string
  {
    QueryHead(searchText, geomColumn, searchColumn, echo, display, extra, schema, table)
    + RowLimit(limit) + OrderBy(searchColumn)
  }

  /** `get_search_sql` as written: pattern, selection, extra-column loop, then the clauses in turn. */
  method GetSearchSql(searchText: string, geomColumn: string, searchColumn: string, echo: bool,
                      display: string, extra: seq<string>, schema: string, table: string, limit: Option<int>)
    returns (queryText: string)
    ensures queryText == SearchSql(searchText, geomColumn, searchColumn, echo, display, extra, schema, table, limit)
  {
    var pattern := BuildPattern(searchText);
    queryText := GeomColumns(geomColumn);
    var selection := PostgresSql.BuildSelection(echo, searchColumn, display);
    queryText := queryText + selection;
    queryText := PostgresSql.AppendExtraColumns(queryText, extra);
    queryText := queryText + FromWhere(schema, table, searchColumn);
    queryText := queryText + PatternLiteral(pattern);
    var limitText := if limit.Some? then IntToString(limit.value) else "1000";
    queryText := queryText + ("AND ROWNUM <= " + limitText);
    queryText := queryText + OrderBy(searchColumn);
  }

  // ---------------------------------------------------------------------------
  // Properties of the query
  // ---------------------------------------------------------------------------

  /** The ROWNUM bound SQL reads is `int(limit)`, or 1000 when the setting is not a number. */
  lemma LimitReadsBack(limit: Option<int>)
    ensures ReadIntLiteral(LimitText(limit)) == Some(if limit.Some? then limit.value else 1000)
  {
    if limit.Some? {
      IntToStringRoundTrip(limit.value);
    } else {
      IntToStringRoundTrip(1000);
      assert IntToString(1000) == "1000" by {
        assert NatToString(1) == "1";
        assert NatToString(10) == "10";
        assert NatToString(100) == "100";
      }
    }
  }

  lemma OrderByStart(searchColumn: string)
    ensures "ORDER BY" <= OrderBy(searchColumn)
  {
    assert OrderBy(searchColumn) == "ORDER BY" + OrderBy(searchColumn)[8..];
  }

  /**
   * The limit runs straight into the ORDER BY: the text holds
   * `AND ROWNUM <= N` immediately followed by `ORDER BY`, with no blank between.
   */
  lemma RownumRunsIntoOrderBy(searchText: string, geomColumn: string, searchColumn: string, echo: bool,
                              display: string, extra: seq<string>, schema: string, table: string, limit: Option<int>)
    ensures IsSubstring(RowLimit(limit) + "ORDER BY",
                        SearchSql(searchText, geomColumn, searchColumn, echo, display, extra, schema, table, limit))
  {
    OrderByStart(searchColumn);
    AdjacentSubstring(QueryHead(searchText, geomColumn, searchColumn, echo, display, extra, schema, table),
                      RowLimit(limit), "ORDER BY", OrderBy(searchColumn));
  }

  /**
   * As written, a single quote in the search text ends the literal early:
   * when the pattern is `a'b` with no quote in `a` and `b` non-empty and not
   * starting with another quote (a pattern always ends in `%`), SQL reads the
   * literal as `a` alone and the rest of the pattern as more SQL text.
   */
  lemma QuoteEndsPatternLiteral(a: string, b: string)
    requires '\'' !in a
    requires b != [] && b[0] != '\''
    ensures ReadQuoted(PatternLiteral(a + "'" + b)[10..], '\'') == Some((a, b + "')\n\t" + Spaces(14)))
  {
    var rest := b + "')\n\t" + Spaces(14);
    assert PatternLiteral(a + "'" + b)[10..] == a + ['\''] + rest;
    DoubledWithout(a, '\'');
    ReadDoubled(a, '\'', rest);
  }

  /** The search text "o'neil" gives the pattern `%o'neil%`, which SQL reads as the literal `%o`. */
  lemma QuotedSearchMisread(searchText: string)
    requires searchText == "o'neil"
    ensures SearchPattern(searchText) == "%o'neil%"
    ensures ReadQuoted(PatternLiteral(SearchPattern(searchText))[10..], '\'') == Some(("%o", "neil%')\n\t" + Spaces(14)))
  {
    assert IsToken(searchText) by {
      forall i | 0 <= i < |searchText| ensures !IsSpace(searchText[i]) {
        assert searchText[i] in {'o', '\'', 'n', 'e', 'i', 'l'};
      }
    }
    WordsOfToken(searchText);
    assert [searchText][..0] == [];
    assert Wildcarded([searchText]) == [] + "%" + searchText;
    var pattern := SearchPattern(searchText);
    assert pattern == "%" + searchText + "%";
    assert pattern == "%o" + "'" + "neil%";
    QuoteEndsPatternLiteral("%o", "neil%");
    assert PatternLiteral(pattern) == PatternLiteral("%o" + "'" + "neil%");
    assert "neil%" + "')\n\t" + Spaces(14) == "neil%')\n\t" + Spaces(14);
  }

  /** The literal with the pattern escaped by `_quote_str`, as the PostgreSQL helpers would have it. */
  function EscapedPatternLiteral(pattern: string): string {
    "   LOWER('" + PostgresSql.QuoteStr(pattern) + "')\n\t" + Spaces(14)
  }

  /** Escaped, every pattern is read back whole and the literal closes where the template closes it. */
  lemma EscapedPatternReadsBack(pattern: string)
    ensures ReadQuoted(EscapedPatternLiteral(pattern)[10..], '\'') == Some((pattern, ")\n\t" + Spaces(14)))
  {
    var rest := ")\n\t" + Spaces(14);
    assert EscapedPatternLiteral(pattern)[10..] == PostgresSql.QuoteStr(pattern) + "'" + rest;
    PostgresSql.QuoteStrReadsBack(pattern, rest);
  }

  // ---------------------------------------------------------------------------
  // The connection string (Discovery/oracle_utils.py:26-35)
  // ---------------------------------------------------------------------------

  /**
   * `port not in ("1521")`: the parentheses make no tuple, so this is a
   * substring test on the text "1521", true for "", "15" and "521" as well.
   */
  predicate PortOmitted(port: string) {
    IsSubstring(port, "1521")
  }

  /** The EZConnect string: host, then `:port` unless omitted, then `/database` if set. */
  function ConnectionString(host: string, port: string, database: string): string {
    var withPort := if PortOmitted(port) then host else host + ":" + port;
    if database != "" then withPort + "/" + database else withPort
  }

  /** The conditional appends of `get_connection`. */
  method BuildConnectionString(host: string, port: string, database: string) returns (connectionString: string)
    ensures connectionString == ConnectionString(host, port, database)
  {
    connectionString := "";
    if host != "" {
      connectionString := host;
    }
    if !PortOmitted(port) {
      connectionString := connectionString + ":" + port;
    }
    if database != "" {
      connectionString := connectionString + "/" + database;
    }
  }

  /**
   * With colon-free host and database names, the string names a port exactly
   * when the port text does not occur inside "1521".
   */
  lemma PortShownUnlessInsideDefault(host: string, port: string, database: string)
    requires ':' !in host && ':' !in database
    ensures ':' in ConnectionString(host, port, database) <==> !PortOmitted(port)
  {
    var cs := ConnectionString(host, port, database);
    if !PortOmitted(port) {
      var withPort := host + ":" + port;
      assert withPort[|host|] == ':';
      assert cs[|host|] == ':';
    } else {
      if database != "" {
        assert cs == host + ['/'] + database;
      }
    }
  }

  /**
   * The substring test at work: an empty port and the default "1521" are
   * left out, as intended, but so is "15"; "1522" is kept.
   */
  lemma PortSubstringQuirk(host: string, database: string)
    requires database == ""
    ensures ConnectionString(host, "", database) == host
    ensures ConnectionString(host, "1521", database) == host
    ensures ConnectionString(host, "15", database) == host
    ensures ConnectionString(host, "1522", database) == host + ":1522"
  {
    assert "" <= "1521"[0..];
    assert "1521" <= "1521"[0..];
    assert "15" <= "1521"[0..];
    forall i | 0 <= i <= 4 ensures !("1522" <= "1521"[i..]) {
      if i == 0 {
        assert "1522"[3] != "1521"[3];
      }
    }
  }
}
