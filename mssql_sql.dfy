/**
 * The SQL Server search query and ODBC connection string of
 * Discovery/mssql_utils.py. Identifiers go in brackets, the suggestion is a
 * `CONCAT_WS(', ', ...)` over the bracketed info columns, and the pattern is
 * spliced into a string literal; there is no row limit.
 */
module MssqlSql {
  import opened Wrappers
  import opened Text
  import opened Wildcard
  import PostgresSql

  // ---------------------------------------------------------------------------
  // `_quote_brackets` (Discovery/mssql_utils.py:103-105)
  // ---------------------------------------------------------------------------

  /** `_quote_brackets(identifier)` as written: `[...]` around the identifier with every `"` doubled. */
  function QuoteBrackets(identifier: string): (q: string)
    ensures |q| >= |identifier| + 2 && q[0] == '[' && q[|q| - 1] == ']'
  {
    "[" + Doubled(identifier, '"') + "]"
  }

  /**
   * As written, a bracketed name is read back with every `"` doubled: for a
   * name without `]`, SQL Server reads the identifier `Doubled(x, '"')`,
   * which is `x` only when `x` holds no `"`.
   */
  lemma QuoteBracketsDoublesQuotes(x: string)
    requires ']' !in x
    ensures ReadQuoted(QuoteBrackets(x)[1..], ']') == Some((Doubled(x, '"'), []))
    ensures Doubled(x, '"') == x <==> '"' !in x
  {
    var d := Doubled(x, '"');
    assert QuoteBrackets(x)[1..] == d + [']'] + [];
    DoubledKeepsOthers(x, '"', ']');
    DoubledWithout(d, ']');
    ReadDoubled(d, ']', []);
    if '"' in x {
      DoubledLonger(x, '"');
    } else {
      DoubledWithout(x, '"');
    }
  }

  lemma {:induction false} DoubledKeepsOthers(x: string, q: char, c: char)
    requires c != q && c !in x
    ensures c !in Doubled(x, q)
    decreases |x|
  {
    if x != [] {
      DoubledKeepsOthers(x[1..], q, c);
    }
  }

  lemma {:induction false} DoubledLonger(x: string, q: char)
    requires q in x
    ensures |Doubled(x, q)| > |x|
    decreases |x|
  {
    if x[0] != q {
      DoubledLonger(x[1..], q);
    }
  }

  /** As written, a `]` inside the name closes it early: `a]b` is read as the identifier `a`. */
  lemma QuoteBracketsEndsAtBracket()
    ensures QuoteBrackets("a]b") == "[a]b]"
    ensures ReadQuoted(QuoteBrackets("a]b")[1..], ']') == Some(("a", "b]"))
  {
    assert Doubled("a]b", '"') == "a]b" by {
      DoubledWithout("a]b", '"');
    }
    var body := QuoteBrackets("a]b")[1..];
    assert body == "a]b]";
    assert body[1..] == "]b]";
    assert "]b]"[1..] == "b]";
    assert ReadQuoted("]b]", ']') == Some(([], "b]"));
    assert body[0] == 'a';
    assert ReadQuoted(body, ']') == Some((['a'] + [], "b]"));
    assert ['a'] + [] == "a";
  }

  /** The bracket quoting SQL Server defines: `[...]` with every `]` doubled. */
  function QuoteBracketsEscaped(identifier: string): (q: string)
    ensures |q| >= |identifier| + 2 && q[0] == '[' && q[|q| - 1] == ']'
  {
    "[" + Doubled(identifier, ']') + "]"
  }

  /** Escaped this way, every name is read back whole and ends at its own closing bracket. */
  lemma QuoteBracketsEscapedReadsBack(identifier: string, rest: string)
    requires rest == [] || rest[0] != ']'
    ensures ReadQuoted(QuoteBracketsEscaped(identifier)[1..] + rest, ']') == Some((identifier, rest))
  {
    assert QuoteBracketsEscaped(identifier)[1..] + rest == Doubled(identifier, ']') + [']'] + rest;
    ReadDoubled(identifier, ']', rest);
  }

  // ---------------------------------------------------------------------------
  // The pieces of the query (Discovery/mssql_utils.py:112-138)
  // ---------------------------------------------------------------------------

  function GeomColumns(geomColumn: string): string {
    " SELECT\n" + Spaces(28) + "[" + geomColumn + "].STAsText() AS geom,\n"
    + Spaces(28) + "[" + geomColumn + "].STSrid AS epsg,\n" + Spaces(21)
  }

  /** Each column name bracket-quoted, in order. */
  function QuotedList(columns: seq<string>): (q: seq<string>)
    ensures |q| == |columns|
  {
    seq(|columns|, i requires 0 <= i < |columns| => QuoteBrackets(columns[i]))
  }

  /** The CONCAT_WS arguments: the search column when echoed, then every display column in order. */
  function InfoColumns(echo: bool, searchColumn: string, display: string): seq<string> {
    (if echo then [QuoteBrackets(searchColumn)] else []) + QuotedList(PostgresSql.DisplayList(display))
  }

  function Selection(info: seq<string>): string {
    "CONCAT_WS(', ', " + Join(info, ",") + " ) AS suggestion_string "
  }

  /** One `, [c]` per extra expression column, in list order. */
  function ExtraList(extra: seq<string>): (items: seq<string>)
    ensures |items| == |extra|
  {
    seq(|extra|, k requires 0 <= k < |extra| => ", [" + extra[k] + "]")
  }

  function FromWhere(schema: string, table: string, searchColumn: string): string {
    "\n" + Spaces(22) + "FROM\n" + Spaces(28) + "\"" + schema + "\".\"" + table + "\"\n"
    + Spaces(22) + "WHERE [" + searchColumn + "] LIKE\n" + Spaces(22)
  }

  /** The pattern spliced as it is between the quotes of a string literal. */
  function PatternLiteral(pattern: string): string {
    "   '" + pattern + "'\n" + Spaces(22)
  }

  function OrderBy(searchColumn: string): string {
    "ORDER BY\n" + Spaces(28) + "[" + searchColumn + "]\n" + Spaces(22)
  }

  /** The text `get_search_sql` returns. */
  function SearchSql(searchText: string, geomColumn: string, searchColumn: string, echo: bool,
                     display: string, extra: seq<string>, schema: string, table: string): string
  {
    Appended(GeomColumns(geomColumn) + Selection(InfoColumns(echo, searchColumn, display)), ExtraList(extra))
    + FromWhere(schema, table, searchColumn) + PatternLiteral(SearchPattern(searchText)) + OrderBy(searchColumn)
  }

  /** The info-column list (Discovery/mssql_utils.py:117-122), appended to in a loop. */
  method BuildInfoColumns(echo: bool, searchColumn: string, display: string) returns (info: seq<string>)
    ensures info == InfoColumns(echo, searchColumn, display)
  {
    info := [];
    if echo {
      info := info + [QuoteBrackets(searchColumn)];
    }
    ghost var start := info;
    ghost var quoted := QuotedList(PostgresSql.DisplayList(display));
    if |display| > 0 {
      var columns := Split(display, ',');
      for i := 0 to |columns|
        invariant info == start + quoted[..i]
      {
        assert quoted[..i + 1] == quoted[..i] + [QuoteBrackets(columns[i])];
        info := info + [QuoteBrackets(columns[i])];
      }
      assert quoted[..|columns|] == quoted;
    } else {
      assert quoted == [];
      assert info == start + quoted;
    }
  }

  /** The extra-column loop (Discovery/mssql_utils.py:127-128). */
  method AppendExtraColumns(head: string, extra: seq<string>) returns (text: string)
    ensures text == Appended(head, ExtraList(extra))
  {
    ghost var items := ExtraList(extra);
    text := head;
    for i := 0 to |extra|
      invariant text == Appended(head, items[..i])
    {
      assert items[..i + 1][..i] == items[..i];
      text := text + ", [" + extra[i] + "]";
    }
    assert items[..|extra|] == items;
  }

  /** `get_search_sql` as written. */
  method GetSearchSql(searchText: string, geomColumn: string, searchColumn: string, echo: bool,
                      display: string, extra: seq<string>, schema: string, table: string)
    returns (queryText: string)
    ensures queryText == SearchSql(searchText, geomColumn, searchColumn, echo, display, extra, schema, table)
  {
    var pattern := BuildPattern(searchText);
    queryText := GeomColumns(geomColumn);
    var info := BuildInfoColumns(echo, searchColumn, display);
    var selectionText := "CONCAT_WS(', ', " + Join(info, ",") + " ) AS suggestion_string ";
    queryText := queryText + selectionText;
    queryText := AppendExtraColumns(queryText, extra);
    queryText := queryText + FromWhere(schema, table, searchColumn);
    queryText := queryText + PatternLiteral(pattern);
    queryText := queryText + OrderBy(searchColumn);
  }

  // ---------------------------------------------------------------------------
  // Properties of the query
  // ---------------------------------------------------------------------------

  /**
   * The CONCAT_WS argument list reads back, split at its commas, as the
   * bracketed columns in order: the search column first when echoed, then
   * each display column, as long as the search column holds no comma (the
   * display columns cannot: they are the pieces of a split on commas).
   */
  lemma InfoColumnsListed(echo: bool, searchColumn: string, display: string)
    requires echo || |display| > 0
    requires echo ==> ',' !in searchColumn
    ensures Split(Join(InfoColumns(echo, searchColumn, display), ","), ',') == InfoColumns(echo, searchColumn, display)
  {
    var info := InfoColumns(echo, searchColumn, display);
    var columns := PostgresSql.DisplayList(display);
    forall i | 0 <= i < |info| ensures ',' !in info[i] {
      var name := if echo && i == 0 then searchColumn else columns[if echo then i - 1 else i];
      assert info[i] == QuoteBrackets(name);
      assert ',' !in name;
      DoubledKeepsOthers(name, '"', ',');
      assert QuoteBrackets(name) == ['['] + Doubled(name, '"') + [']'];
    }
    SplitJoin(info, ',');
  }

  /** The select list ends with the extra expression columns, one `, [c]` each, in list order. */
  lemma ExtraColumnsFollowSuggestion(searchText: string, geomColumn: string, searchColumn: string, echo: bool,
                                     display: string, extra: seq<string>, schema: string, table: string)
    ensures SearchSql(searchText, geomColumn, searchColumn, echo, display, extra, schema, table)
         == GeomColumns(geomColumn) + Selection(InfoColumns(echo, searchColumn, display)) + Concat(ExtraList(extra))
            + FromWhere(schema, table, searchColumn) + PatternLiteral(SearchPattern(searchText)) + OrderBy(searchColumn)
  {
    AppendedIsConcat(GeomColumns(geomColumn) + Selection(InfoColumns(echo, searchColumn, display)), ExtraList(extra));
  }

  /**
   * As written, a single quote in the search text ends the literal early:
   * for a pattern `a'b` (no quote in `a`, `b` non-empty and not starting
   * with a quote) SQL reads the literal `a` and takes `b` as SQL text.
   */
  lemma QuoteEndsPatternLiteral(a: string, b: string)
    requires '\'' !in a
    requires b != [] && b[0] != '\''
    ensures ReadQuoted(PatternLiteral(a + "'" + b)[4..], '\'') == Some((a, b + "'\n" + Spaces(22)))
  {
    var rest := b + "'\n" + Spaces(22);
    assert PatternLiteral(a + "'" + b)[4..] == a + ['\''] + rest;
    DoubledWithout(a, '\'');
    ReadDoubled(a, '\'', rest);
  }

  /** The literal with the pattern escaped by doubling its quotes. */
  function EscapedPatternLiteral(pattern: string): string {
    "   '" + PostgresSql.QuoteStr(pattern) + "'\n" + Spaces(22)
  }

  /** Escaped, every pattern is read back whole and the literal closes where the template closes it. */
  lemma EscapedPatternReadsBack(pattern: string)
    ensures ReadQuoted(EscapedPatternLiteral(pattern)[4..], '\'') == Some((pattern, "\n" + Spaces(22)))
  {
    var rest := "\n" + Spaces(22);
    assert EscapedPatternLiteral(pattern)[4..] == PostgresSql.QuoteStr(pattern) + "'" + rest;
    PostgresSql.QuoteStrReadsBack(pattern, rest);
  }

  // ---------------------------------------------------------------------------
  // The connection (Discovery/mssql_utils.py:26-51)
  // ---------------------------------------------------------------------------

  /** `sys.platform.startswith("win")` or not. */
  datatype Platform = Windows | OtherPlatform

  function DriverPrefix(platform: Platform): string {
    if platform == Windows then "driver={SQL Server}" else "driver={FreeTDS};port=1433"
  }

  /** The two attributes every built connection string ends with. */
  const TdsVersion: string := "TDS_Version=8.0"
  const ClientCharset: string := "ClientCharset=UTF-8"

  /** The connection string `get_connection` hands to the ODBC driver. */
  function ConnectionString(service: string, host: string, database: string, username: string,
                            password: string, platform: Platform): string
  {
    if service != "" then service
    else
      var withHost := if host != "" then DriverPrefix(platform) + ";server=" + host else DriverPrefix(platform);
      var withDatabase := if database != "" then withHost + ";database=" + database else withHost;
      var withLogin := if password == "" then withDatabase + ";trusted_connection=yes"
                       else withDatabase + ";uid=" + username + ";pwd=" + password;
      withLogin + ";" + TdsVersion + ";" + ClientCharset
  }

  /** What `get_connection` sets on the database handle; None where it calls no setter. */
  datatype Handle = Handle(hostName: string, databaseName: string, userName: Option<string>, password: Option<string>)

  /** The setter calls and conditional appends of `get_connection`, before `open()`. */
  method Configure(service: string, host: string, database: string, username: string, password: string,
                   platform: Platform) returns (handle: Handle)
    ensures handle.hostName == host
    ensures handle.databaseName == ConnectionString(service, host, database, username, password, platform)
    ensures handle.userName == (if service == "" && username != "" then Some(username) else None)
    ensures handle.password == (if service == "" && password != "" then Some(password) else None)
  {
    handle := Handle(host, "", None, None);
    var connectionString: string;
    if service != "" {
      connectionString := service;
    } else {
      if platform == Windows {
        connectionString := "driver={SQL Server}";
      } else {
        connectionString := "driver={FreeTDS};port=1433";
      }
      if host != "" {
        connectionString := connectionString + ";server=" + host;
      }
      if database != "" {
        connectionString := connectionString + ";database=" + database;
      }
      if password == "" {
        connectionString := connectionString + ";trusted_connection=yes";
      } else {
        connectionString := connectionString + ";uid=" + username + ";pwd=" + password;
      }
      connectionString := connectionString + ";" + TdsVersion + ";" + ClientCharset;
      if username != "" {
        handle := handle.(userName := Some(username));
      }
      if password != "" {
        handle := handle.(password := Some(password));
      }
    }
    handle := handle.(databaseName := connectionString);
  }

  /** The `key=value` attributes the string is made of, in order, outside the service case. */
  function Attributes(host: string, database: string, username: string, password: string,
                      platform: Platform): seq<string>
  {
    (if platform == Windows then ["driver={SQL Server}"] else ["driver={FreeTDS}", "port=1433"])
    + (if host != "" then ["server=" + host] else [])
    + (if database != "" then ["database=" + database] else [])
    + (if password == "" then ["trusted_connection=yes"] else ["uid=" + username, "pwd=" + password])
    + [TdsVersion, ClientCharset]
  }

  lemma {:induction false} JoinSnoc(parts: seq<string>, x: string, sep: string)
    requires parts != []
    ensures Join(parts + [x], sep) == Join(parts, sep) + sep + x
    decreases |parts|
  {
    if |parts| == 1 {
      assert (parts + [x])[1..] == [x];
    } else {
      assert (parts + [x])[1..] == parts[1..] + [x];
      JoinSnoc(parts[1..], x, sep);
    }
  }

  lemma JoinPair(a: string, b: string, sep: string)
    ensures Join([a, b], sep) == a + sep + b
  {
    assert [a, b][1..] == [b];
  }

  lemma AppendAttribute(p: seq<string>, s: string, key: string, sepKey: string, value: string)
    requires p != [] && Join(p, ";") == s
    requires sepKey == ";" + key
    ensures Join(p + [key + value], ";") == s + sepKey + value
  {
    JoinSnoc(p, key + value, ";");
  }

  lemma DriverAttributes(platform: Platform)
    ensures Join(if platform == Windows then ["driver={SQL Server}"] else ["driver={FreeTDS}", "port=1433"], ";")
         == DriverPrefix(platform)
  {
    if platform != Windows {
      JoinPair("driver={FreeTDS}", "port=1433", ";");
    }
  }

  lemma HostAttribute(p: seq<string>, s: string, host: string)
    requires p != [] && Join(p, ";") == s
    ensures Join(p + (if host != "" then ["server=" + host] else []), ";")
         == (if host != "" then s + ";server=" + host else s)
  {
    if host != "" {
      AppendAttribute(p, s, "server=", ";server=", host);
    } else {
      assert p + [] == p;
    }
  }

  lemma DatabaseAttribute(p: seq<string>, s: string, database: string)
    requires p != [] && Join(p, ";") == s
    ensures Join(p + (if database != "" then ["database=" + database] else []), ";")
         == (if database != "" then s + ";database=" + database else s)
  {
    if database != "" {
      AppendAttribute(p, s, "database=", ";database=", database);
    } else {
      assert p + [] == p;
    }
  }

  lemma LoginAttributes(p: seq<string>, s: string, username: string, password: string)
    requires p != [] && Join(p, ";") == s
    ensures Join(p + (if password == "" then ["trusted_connection=yes"] else ["uid=" + username, "pwd=" + password]), ";")
         == (if password == "" then s + ";trusted_connection=yes" else s + ";uid=" + username + ";pwd=" + password)
  {
    if password == "" {
      JoinSnoc(p, "trusted_connection=yes", ";");
    } else {
      UidPwdAttributes(p, s, username, password);
    }
  }

  lemma UidPwdAttributes(p: seq<string>, s: string, username: string, password: string)
    requires p != [] && Join(p, ";") == s
    ensures Join(p + ["uid=" + username, "pwd=" + password], ";") == s + ";uid=" + username + ";pwd=" + password
  {
    var withUid := p + ["uid=" + username];
    AppendAttribute(p, s, "uid=", ";uid=", username);
    AppendAttribute(withUid, s + ";uid=" + username, "pwd=", ";pwd=", password);
    assert p + ["uid=" + username, "pwd=" + password] == withUid + ["pwd=" + password];
  }

  lemma TailAttributes(p: seq<string>, s: string)
    requires p != [] && Join(p, ";") == s
    ensures Join(p + [TdsVersion, ClientCharset], ";") == s + ";" + TdsVersion + ";" + ClientCharset
  {
    var p1 := p + [TdsVersion];
    JoinSnoc(p, TdsVersion, ";");
    JoinSnoc(p1, ClientCharset, ";");
    assert p + [TdsVersion, ClientCharset] == p1 + [ClientCharset];
  }

  /** The string is the attributes joined with `;`. */
  lemma ConnectionStringJoinsAttributes(host: string, database: string, username: string, password: string,
                                        platform: Platform)
    ensures ConnectionString("", host, database, username, password, platform)
         == Join(Attributes(host, database, username, password, platform), ";")
  {
    var p0: seq<string> := if platform == Windows then ["driver={SQL Server}"] else ["driver={FreeTDS}", "port=1433"];
    DriverAttributes(platform);
    var p1 := p0 + (if host != "" then ["server=" + host] else []);
    HostAttribute(p0, DriverPrefix(platform), host);
    var s1 := if host != "" then DriverPrefix(platform) + ";server=" + host else DriverPrefix(platform);
    var p2 := p1 + (if database != "" then ["database=" + database] else []);
    DatabaseAttribute(p1, s1, database);
    var s2 := if database != "" then s1 + ";database=" + database else s1;
    var p3 := p2 + (if password == "" then ["trusted_connection=yes"] else ["uid=" + username, "pwd=" + password]);
    LoginAttributes(p2, s2, username, password);
    var s3 := if password == "" then s2 + ";trusted_connection=yes" else s2 + ";uid=" + username + ";pwd=" + password;
    TailAttributes(p3, s3);
  }

  /** No part holds the character `c`. */
  predicate Free(parts: seq<string>, c: char) {
    forall i :: 0 <= i < |parts| ==> c !in parts[i]
  }

  lemma FreeAppend(a: seq<string>, b: seq<string>, c: char)
    requires Free(a, c) && Free(b, c)
    ensures Free(a + b, c)
  {
    forall i | 0 <= i < |a + b| ensures c !in (a + b)[i] {
      if i >= |a| {
        assert (a + b)[i] == b[i - |a|];
      }
    }
  }

  lemma FreeAttribute(key: string, value: string, c: char)
    requires c !in key && c !in value
    ensures Free([key + value], c)
  {
    assert forall j :: 0 <= j < |key + value| ==> (key + value)[j] == if j < |key| then key[j] else value[j - |key|];
  }

  lemma DriverFree(platform: Platform)
    ensures Free(if platform == Windows then ["driver={SQL Server}"] else ["driver={FreeTDS}", "port=1433"], ';')
  {
    FreeAttribute("driver={SQL Server}", "", ';');
    FreeAttribute("driver={FreeTDS}", "", ';');
    FreeAttribute("port=1433", "", ';');
    FreeAppend(["driver={FreeTDS}"], ["port=1433"], ';');
  }

  lemma LoginFree(username: string, password: string)
    requires ';' !in username && ';' !in password
    ensures Free(if password == "" then ["trusted_connection=yes"] else ["uid=" + username, "pwd=" + password], ';')
  {
    if password == "" {
      FreeAttribute("trusted_connection=yes", "", ';');
    } else {
      FreeAttribute("uid=", username, ';');
      FreeAttribute("pwd=", password, ';');
      FreeAppend(["uid=" + username], ["pwd=" + password], ';');
    }
  }

  lemma TailFree()
    ensures Free([TdsVersion, ClientCharset], ';')
  {
    FreeAttribute(TdsVersion, "", ';');
    FreeAttribute(ClientCharset, "", ';');
    FreeAppend([TdsVersion], [ClientCharset], ';');
  }

  lemma OptionalFree(key: string, value: string)
    requires ';' !in key && ';' !in value
    ensures Free(if value != "" then [key + value] else [], ';')
  {
    if value != "" {
      FreeAttribute(key, value, ';');
    }
  }

  lemma AttributesFree(host: string, database: string, username: string, password: string, platform: Platform)
    requires ';' !in host && ';' !in database && ';' !in username && ';' !in password
    ensures Free(Attributes(host, database, username, password, platform), ';')
  {
    var driver: seq<string> := if platform == Windows then ["driver={SQL Server}"] else ["driver={FreeTDS}", "port=1433"];
    var server: seq<string> := if host != "" then ["server=" + host] else [];
    var db: seq<string> := if database != "" then ["database=" + database] else [];
    var login: seq<string> := if password == "" then ["trusted_connection=yes"] else ["uid=" + username, "pwd=" + password];
    var tail: seq<string> := [TdsVersion, ClientCharset];
    DriverFree(platform);
    OptionalFree("server=", host);
    OptionalFree("database=", database);
    LoginFree(username, password);
    TailFree();
    FreeAppend(driver, server, ';');
    FreeAppend(driver + server, db, ';');
    FreeAppend(driver + server + db, login, ';');
    FreeAppend(driver + server + db + login, tail, ';');
  }

  /**
   * Read back as ODBC attributes (split at `;`), the string is exactly the
   * expected list, provided no field holds a `;`.
   */
  lemma ConnectionStringAttributes(host: string, database: string, username: string, password: string,
                                   platform: Platform)
    requires ';' !in host && ';' !in database && ';' !in username && ';' !in password
    ensures Split(ConnectionString("", host, database, username, password, platform), ';')
         == Attributes(host, database, username, password, platform)
  {
    var attrs := Attributes(host, database, username, password, platform);
    AttributesFree(host, database, username, password, platform);
    SplitJoin(attrs, ';');
    ConnectionStringJoinsAttributes(host, database, username, password, platform);
    assert ";" == [';'];
  }

  /**
   * Windows integrated login is requested exactly when the password is empty:
   * `trusted_connection=yes` is one of the attributes if and only if no
   * password was given.
   */
  lemma TrustedConnectionIffNoPassword(host: string, database: string, username: string, password: string,
                                       platform: Platform)
    requires ';' !in host && ';' !in database && ';' !in username && ';' !in password
    ensures "trusted_connection=yes" in Split(ConnectionString("", host, database, username, password, platform), ';')
        <==> password == ""
  {
    ConnectionStringAttributes(host, database, username, password, platform);
    var driver: seq<string> := if platform == Windows then ["driver={SQL Server}"] else ["driver={FreeTDS}", "port=1433"];
    var server: seq<string> := if host != "" then ["server=" + host] else [];
    var db: seq<string> := if database != "" then ["database=" + database] else [];
    var login: seq<string> := if password == "" then ["trusted_connection=yes"] else ["uid=" + username, "pwd=" + password];
    var tail: seq<string> := [TdsVersion, ClientCharset];
    var t := "trusted_connection=yes";
    assert Attributes(host, database, username, password, platform) == driver + server + db + login + tail;
    assert t !in driver;
    assert t !in server by {
      if host != "" {
        assert ("server=" + host)[0] != t[0];
      }
    }
    assert t !in db by {
      if database != "" {
        assert ("database=" + database)[0] != t[0];
      }
    }
    assert t !in tail;
    if password != "" {
      assert ("uid=" + username)[0] != t[0];
      assert ("pwd=" + password)[0] != t[0];
      assert t !in login;
    }
  }
}
