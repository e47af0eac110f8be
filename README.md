# Discovery and PostGIS Search, modelled in Dafny

Discovery is a QGIS plugin: a search box on the toolbar. It looks up the text
the user types in one column of a database table and lists the matching rows.
Picking a row shows a fading marker on the map and zooms there. PostGIS
Search is the earlier plugin Discovery grew out of. This project models
their core:

- **The search-query builders** (`wildcard.dfy`, `postgres_sql.dfy`, `oracle_sql.dfy`,
  `mssql_sql.dfy`, `postgis_search.dfy`) for PostgreSQL, Oracle, SQL Server and PostGIS Search.
  - The model keeps each builder's exact text, indentation included.
  - It also models the quoting helpers and the Oracle and SQL Server connection strings.
  - It proves what a query means:
    - the `%tok1%tok2%` pattern matches a value exactly when the tokens appear in it in order;
    - the PostgreSQL text is the same for every search text, which travels only as a bound parameter;
    - the suggestion lists the display columns in order;
    - the extra expression columns come after the suggestion;
    - where the quoting round-trips, and where it does not.
- **What the suggestion expression evaluates to** on a row (`suggestion_eval.dfy`).
  The `||`/`CASE` chain of the PostgreSQL and Oracle builders is compared with SQL Server's `CONCAT_WS`.
- **The scheduler and connection cache** (`scheduling.dfy`, shared by both plugins):
  - each edit schedules its query 500 ms ahead and replaces any query still pending;
  - a timer tick runs a due query once;
  - the connection is dropped after 60 s without queries.
- **The `DiscoveryPlugin` object** (`discovery_plugin.dfy`), a class whose fields the methods update:
  - the edit handler, the tick, the search and the connection cache;
  - `read_config`'s configuration gate;
  - the result list and the completer list, built entry by entry from the rows;
  - the marker fade;
  - the zoom choice (`navigation.dfy`): a bounding box when the bbox expression yields a text that parses, otherwise a scale, 1:2000 by default; no zoom where the handler raises TypeError (a bbox value that is not a text, a scale value that is NULL or text).
- **The `PostGISSearch` object** (`postgis_search.dfy`): the same scheduler, its own inline builder and a fixed square of 500 map units.
- **The display-column part of the configuration dialog** (`config_dialog.dfy`): five combo boxes are joined into the `display_columns` setting and loaded back from it. The model proves the save/load round trips.

Not modelled, and passed in as parameters instead:

- Time, as an integer number of milliseconds.
- The rows a query returns.
- Python's `float()` and `int()`, as partial functions or given verdicts.
- The QGIS expression parser and evaluator.
- A result's reprojected centroid.

Strings are sequences of characters. Marker opacity is counted in tenths.

Where the code and its description differ, the model follows the code:

- The PostgreSQL builder strips a leading `'', `, but that branch can never fire (`PostgresSql.SelectionInOrder`).
- The Oracle port test `port not in ("1521")` is a substring test, not a tuple test (`OracleSql.PortSubstringQuirk`).
- The `_quote`/`_quote_str` helpers are not used by the builders, which splice names raw between quotes.
- Oracle's `_quote` (Discovery/oracle_utils.py:99-101) is the same function as `PostgresSql.QuoteIdent`.
- The builders keep the text as written. The corrected definitions in the Findings below are separate members, each with its intended property proved.

## Model

| member | source | states |
|---|---|---|
| Wildcard.BuildPattern | Discovery/dbutils.py:126-129 | the token loop computes `SearchPattern(text)`: `%` before each whitespace-separated token, then one closing `%` |
| Wildcard.PatternAppendsToken | Discovery/dbutils.py:126-129 | typing a space and one more token turns the pattern `P` into `P + token + "%"` |
| Wildcard.BlankTextPattern | Discovery/dbutils.py:126-129 | a blank or whitespace-only text gives the pattern `%` |
| Wildcard.MainRoadPattern | Discovery/dbutils.py:126-129 | "main road" gives `%main%road%`: one pattern asking for both tokens in order, not one condition per token |
| Wildcard.PercentMatchesAll | Discovery/dbutils.py:129 | the lone `%` pattern matches every value |
| Wildcard.MatchMeansInOrder | Discovery/dbutils.py:126-129 | a value the pattern matches contains the tokens in typed order |
| Wildcard.InOrderMeansMatch | Discovery/dbutils.py:126-129 | a value containing the tokens in order is matched by the pattern |
| Wildcard.PatternMatchesTokensInOrder | Discovery/dbutils.py:126-129 | for tokens without LIKE metacharacters: the pattern matches a value iff the tokens occur in it in order |
| Wildcard.PatternFromFront | Discovery/dbutils.py:126-129 | the leading `%` lets the rest of the pattern match at any position of the value |
| Wildcard.TokenAt | Discovery/dbutils.py:126-129 | a plain token in the pattern matches exactly that text at the current position |
| Text.JoinSplit | Discovery/config_dialog.py:147-156 | joining the pieces of `split(',')` with `,` restores the text |
| Text.SplitJoin | Discovery/config_dialog.py:147-156 | splitting a `,`-join of comma-free pieces gives the pieces back |
| Text.IntToStringRoundTrip | Discovery/oracle_utils.py:162-163 | the decimal text of an integer reads back as that integer |
| Text.ReadDoubled | Discovery/dbutils.py:64-71 | a quote-doubled body followed by a closing quote reads back as the original text, with the rest untouched |
| PostgresSql.QuoteIdent | Discovery/dbutils.py:64-66 | `_quote` gives a double-quoted identifier, at least two characters longer than the name |
| PostgresSql.QuoteIdentReadsBack | Discovery/dbutils.py:64-66 | SQL reads a `_quote`d identifier back as the same name, ending at its own closing quote |
| PostgresSql.QuoteStrReadsBack | Discovery/dbutils.py:69-71 | a string literal whose body is `_quote_str(txt)` reads back as `txt` |
| PostgresSql.QuoteIdentPlain | Discovery/dbutils.py:64-66 | for a name without `"`, the builders' raw `"%s"` splice equals `_quote` |
| PostgresSql.AppendCaseClauses | Discovery/dbutils.py:143-151 | the display loop appends one CASE clause per column: the first uses the echo-dependent separator, the later ones `', '` |
| PostgresSql.BuildSelection | Discovery/dbutils.py:136-155 | the selection text is `Selection(echo, searchColumn, display)`: the start, the clauses, the alias, and the (never firing) strip |
| PostgresSql.AppendExtraColumns | Discovery/dbutils.py:156-157 | one `, "c"` is appended per extra expression column, in list order |
| PostgresSql.GetSearchSql | Discovery/dbutils.py:107-171 | returns `SearchSql`: the query text and the dictionary `{search_text: pattern}` |
| PostgresSql.SelectionInOrder | Discovery/dbutils.py:136-155 | the `'', ` strip never fires; the selection is the start, each display column's clause in order, then the alias |
| PostgresSql.NotStripped | Discovery/dbutils.py:153-154 | neither selection start begins with `'', ` |
| PostgresSql.EmptyDisplayNoClauses | Discovery/dbutils.py:143 | an empty display setting adds no CASE clause |
| PostgresSql.ExtraColumnsFollowSuggestion | Discovery/dbutils.py:131-170 | the select list is geom, epsg, suggestion_string, then the extra columns in order, then FROM/WHERE/ORDER BY |
| PostgresSql.PlaceholderHoldsParameter | Discovery/dbutils.py:164-165 | the text holds the `%(search_text)s` placeholder |
| PostgresSql.SearchTextOnlyInParameters | Discovery/dbutils.py:107-171 | the text is the same for any two search texts; the pattern is only the `search_text` parameter; the text ends with ORDER BY and LIMIT 1000 |
| SuggestionEval.Values | Discovery/dbutils.py:143-151 | entry `i` is the row's value for display column `i` |
| SuggestionEval.EchoOnIsNullSafe | Discovery/dbutils.py:136-151 | with echo on and the search column set, the `\|\|` suggestion equals `CONCAT_WS(', ', search, displays...)` |
| SuggestionEval.EchoOffFirstPresent | Discovery/dbutils.py:139-151 | with echo off, the suggestion equals CONCAT_WS as long as the first display column is not NULL |
| SuggestionEval.EchoOffLeadingSeparator | Discovery/dbutils.py:139-151 | as written: with `a` NULL and `b = "x"`, the suggestion is `", x"`, where CONCAT_WS gives `"x"` |
| SuggestionEval.ConcatWsIgnoresNull | Discovery/mssql_utils.py:124 | a NULL anywhere among CONCAT_WS arguments changes nothing |
| SuggestionEval.ConcatWsNoLeadingSeparator | Discovery/mssql_utils.py:124 | the CONCAT_WS suggestion never starts with a separator, whichever values are NULL |
| OracleSql.GetSearchSql | Discovery/oracle_utils.py:103-167 | returns `SearchSql`: the PostgreSQL selection and extra columns, the Oracle geometry and FROM/WHERE, the pattern literal, the ROWNUM limit, ORDER BY |
| OracleSql.LimitReadsBack | Discovery/oracle_utils.py:162-163 | the ROWNUM bound reads as `int(limit)` when the setting is a number, as 1000 otherwise |
| OracleSql.RownumRunsIntoOrderBy | Discovery/oracle_utils.py:162-166 | the text holds `AND ROWNUM <= N` immediately followed by `ORDER BY` |
| OracleSql.QuoteEndsPatternLiteral | Discovery/oracle_utils.py:159-160 | as written: a `'` in the pattern `a'b` ends the literal after `a` |
| OracleSql.QuotedSearchMisread | Discovery/oracle_utils.py:121-160 | as written: the search "o'neil" gives `%o'neil%`, read as the literal `%o` |
| OracleSql.EscapedPatternReadsBack | Discovery/oracle_utils.py:159-160 | corrected: with the body escaped by `_quote_str`, every pattern reads back whole |
| OracleSql.BuildConnectionString | Discovery/oracle_utils.py:26-35 | the conditional appends compute `host[:port][/database]` |
| OracleSql.PortShownUnlessInsideDefault | Discovery/oracle_utils.py:31-32 | for colon-free host and database: the string names a port iff the port text is not a substring of "1521" |
| OracleSql.PortSubstringQuirk | Discovery/oracle_utils.py:31-32 | "" and "1521" are left out, and so is "15"; "1522" is kept |
| MssqlSql.QuoteBrackets | Discovery/mssql_utils.py:103-105 | `_quote_brackets` wraps the name in `[`..`]` |
| MssqlSql.QuoteBracketsDoublesQuotes | Discovery/mssql_utils.py:103-105 | for a name without `]`, SQL Server reads back the name with `"` doubled; that is the name iff it holds no `"` |
| MssqlSql.QuoteBracketsEndsAtBracket | Discovery/mssql_utils.py:103-105 | as written: `a]b` is quoted as `[a]b]` and read as the identifier `a` |
| MssqlSql.QuoteBracketsEscapedReadsBack | Discovery/mssql_utils.py:103-105 | corrected: with `]` doubled, every name reads back whole |
| MssqlSql.BuildInfoColumns | Discovery/mssql_utils.py:117-122 | the list is the bracketed search column when echoed, then each bracketed display column in order |
| MssqlSql.AppendExtraColumns | Discovery/mssql_utils.py:127-128 | one `, [c]` per extra column, in list order |
| MssqlSql.GetSearchSql | Discovery/mssql_utils.py:107-140 | returns `SearchSql`: geometry, CONCAT_WS suggestion, extra columns, FROM/WHERE, pattern literal, ORDER BY |
| MssqlSql.InfoColumnsListed | Discovery/mssql_utils.py:117-124 | the CONCAT_WS argument text, split at commas, gives back the bracketed column list |
| MssqlSql.ExtraColumnsFollowSuggestion | Discovery/mssql_utils.py:113-138 | the extra columns come right after the suggestion, in order |
| MssqlSql.QuoteEndsPatternLiteral | Discovery/mssql_utils.py:134-135 | as written: a `'` in the pattern ends the string literal early |
| MssqlSql.EscapedPatternReadsBack | Discovery/mssql_utils.py:134-135 | corrected: with quotes doubled, the pattern reads back whole |
| MssqlSql.Configure | Discovery/mssql_utils.py:26-51 | the handle gets the host, the connection string, and user name and password only outside the service case and when non-empty |
| MssqlSql.ConnectionStringAttributes | Discovery/mssql_utils.py:27-44 | for `;`-free settings, the connection string splits at `;` into the driver, server, database, login and TDS attributes, in order |
| MssqlSql.TrustedConnectionIffNoPassword | Discovery/mssql_utils.py:40-43 | the string asks for a trusted connection iff the password is empty, and carries uid/pwd otherwise |
| MssqlSql.ConnectionStringJoinsAttributes | Discovery/mssql_utils.py:27-44 | the string is the `;`-join of `Attributes(...)` |
| MssqlSql.AttributesFree | Discovery/mssql_utils.py:27-44 | no attribute holds `;` when no setting does |
| Navigation.EvalExpression | Discovery/discoveryplugin.py:33-54 | the default when no expression is set or evaluation reports an error, otherwise the evaluated value whatever its type, NULL included |
| Navigation.Number | Discovery/discoveryplugin.py:276 | a value can be divided by the canvas scale exactly when it is an integer or a float, and then gives that number |
| Navigation.BboxStrToRectangle | Discovery/discoveryplugin.py:57-74 | a rectangle iff the text is present, non-empty, has four comma pieces and each parses |
| Navigation.BboxReadsBack | Discovery/discoveryplugin.py:57-74 | `xmin,ymin,xmax,ymax` written with a float format that reads back gives the same rectangle |
| Navigation.WrongCountRefused | Discovery/discoveryplugin.py:63-65 | any other number of comma pieces gives no rectangle |
| Navigation.BboxTakesPriority | Discovery/discoveryplugin.py:263-270 | a bbox text that parses is the target, whatever the scale expression says |
| Navigation.NonTextBboxRaises | Discovery/discoveryplugin.py:57-61 | a bbox value (line 266) that is a number or NULL makes `len()` raise: no zoom, whatever the scale |
| Navigation.ScaleFallback | Discovery/discoveryplugin.py:271-276 | without a usable bbox: 1:2000 when the scale expression is unset or fails; its value when that is a number; no zoom (TypeError at the division) when it is NULL or text |
| Navigation.NoExpressionsDefaultScale | Discovery/discoveryplugin.py:274 | with no expressions configured the target is 1:2000 |
| Navigation.SquareAround | PostGIS_Search/postgissearch.py:250-258 | the extent is 500 wide and 500 high, centred on the centroid |
| Scheduling.BurstKeepsLast | Discovery/discoveryplugin.py:241-245 | after a burst of edits, only the last edit's query is pending, due 500 ms after it |
| Scheduling.DebounceDelay | Discovery/discoveryplugin.py:212 | a scheduled query is due exactly at ticks strictly later than edit + 500 ms |
| Scheduling.RunsOnce | Discovery/discoveryplugin.py:211-220 | over ticks with no new edit, a pending query runs once if a tick comes after its due time, else never |
| Scheduling.NeverAgain | Discovery/discoveryplugin.py:214 | with nothing pending no tick runs a query |
| Scheduling.ConnectionKept | Discovery/discoveryplugin.py:217-220 | ticks within 60 s of the last query leave the state unchanged |
| Scheduling.IdleDropsConnection | Discovery/discoveryplugin.py:219-220 | a tick more than 60 s after the last query, with nothing due, drops the connection |
| Discovery.Results | Discovery/discoveryplugin.py:227-234 | one search result per row |
| Discovery.ExtraDataPositions | Discovery/discoveryplugin.py:231-233 | the extra data holds exactly the extra columns, column `k` taken from row position `3 + k` |
| Discovery.ResultsAligned | Discovery/discoveryplugin.py:229-235 | suggestion `i` and result `i` come from row `i` |
| Discovery.Accepted | Discovery/discoveryplugin.py:342-360 | an optional expression is kept iff it is non-empty and parses, and is then kept unchanged |
| Discovery.References | Discovery/discoveryplugin.py:342-360 | an expression that is not kept contributes no columns |
| Discovery.FadeEnds | Discovery/discoveryplugin.py:384-394 | from opacity `o`: `o` calls reach opacity 0 still visible, and call `o + 1` hides the marker |
| Discovery.ShownFadesInElevenCalls | Discovery/discoveryplugin.py:374-394 | a marker just shown stays visible for 10 calls and is hidden by the 11th |
| Discovery.FetchResults | Discovery/discoveryplugin.py:227-235 | the row loop builds `Results(rows)` and `Suggestions(rows)` |
| Discovery.BuildExtraData | Discovery/discoveryplugin.py:231-233 | the inner loop builds `ExtraData(columns, row)` |
| Discovery.AcceptExpression | Discovery/discoveryplugin.py:342-360 | one optional expression gives `Accepted` and its `References` |
| Discovery.DiscoveryPlugin.constructor | Discovery/discoveryplugin.py:79-118 | nothing pending, last query stamped now, no connection, no results, markers hidden |
| Discovery.DiscoveryPlugin.ScheduleSearch | Discovery/discoveryplugin.py:241-245 | the scheduler state becomes `Schedule(old, sql, dict, now)` |
| Discovery.DiscoveryPlugin.OnSearchTextChanged | Discovery/discoveryplugin.py:182-209 | the text is recorded; under 3 characters the suggestions are cleared and nothing is scheduled; otherwise the PostgreSQL query is scheduled |
| Discovery.DiscoveryPlugin.GetDbCur | Discovery/discoveryplugin.py:293-297 | a held connection is reused; otherwise one is opened from `conn_info` |
| Discovery.DiscoveryPlugin.PerformSearch | Discovery/discoveryplugin.py:222-239 | runs on the cached connection, or on `Connection(old count, connInfo)` opened and counted when there is none; both lists become `Results(rows)` and `Suggestions(rows)` |
| Discovery.DiscoveryPlugin.DoDbOperations | Discovery/discoveryplugin.py:211-220 | the scheduler state becomes `Tick(old, now)`; a due query rebuilds the lists on the cached connection or on one newly opened from `connInfo`; otherwise the lists and the held connection stay, unless idle for more than 60 s, when it is dropped |
| Discovery.DiscoveryPlugin.ReadConfig | Discovery/discoveryplugin.py:299-360 | settings stored, a displayed marker faded one step (its timer re-armed while still visible), connection dropped; enabled iff the required settings are complete and the connection exists; expressions and extra columns taken in |
| Discovery.DiscoveryPlugin.StoreSettings | Discovery/discoveryplugin.py:303-314 | the plain settings are copied; display_time only when the marker is not kept |
| Discovery.DiscoveryPlugin.HideIfDisplayed | Discovery/discoveryplugin.py:319-321 | a marker kept on display is faded one step and its hide timer re-armed while still visible; otherwise nothing changes |
| Discovery.DiscoveryPlugin.ApplyConfig | Discovery/discoveryplugin.py:323-360 | `Gated`: the enable decision, the accepted expressions, scale columns then bbox columns |
| Discovery.DiscoveryPlugin.ShowMarker | Discovery/discoveryplugin.py:374-382 | both markers centred, opaque, visible; kept on display or a hide timer armed |
| Discovery.DiscoveryPlugin.HideMarker | Discovery/discoveryplugin.py:384-394 | one tenth less opaque and the timer re-armed while positive; hidden otherwise |
| Discovery.DiscoveryPlugin.HideTimerFires | Discovery/discoveryplugin.py:382-391 | a hide timer fires and calls `hide_marker` |
| Discovery.DiscoveryPlugin.OnResultSelected | Discovery/discoveryplugin.py:247-285 | the marker is shown at the centroid and the hide timer armed or the marker kept, as in `ShowMarker`; the target is `ChooseTarget` on the result's extra data, None where the handler raises |
| PostgisSearch.BuildSearchSql | PostGIS_Search/postgissearch.py:173-202 | the inline builder computes `SearchSql`: text and `{search_text: pattern}` |
| PostgisSearch.AppendCaseClauses | PostGIS_Search/postgissearch.py:182-191 | one CASE clause per piece of the split setting, in order |
| PostgisSearch.QueryShape | PostGIS_Search/postgissearch.py:173-202 | the text is the same for any search text; the pattern is only the parameter; the text ends with LIMIT 20 |
| PostgisSearch.EmptyDisplayNamesEmptyColumn | PostGIS_Search/postgissearch.py:182-191 | as written: an empty display setting still gives a clause on the column `""` |
| PostgisSearch.GuardedClausesNameColumns | PostGIS_Search/postgissearch.py:182-191 | corrected: with Discovery's length guard, no clause for an empty setting and no `""` column |
| PostgisSearch.ConnectArgs | PostGIS_Search/postgissearch.py:274-286 | only the database when no user is configured, all five settings otherwise |
| PostgisSearch.FetchLocations | PostGIS_Search/postgissearch.py:217-230 | the row loop builds the (geom, epsg) results and the suggestions, entry `i` from row `i` |
| PostgisSearch.PostGISSearch.constructor | PostGIS_Search/postgissearch.py:38-72 | nothing pending, no connection, the ini settings stored |
| PostgisSearch.PostGISSearch.ScheduleSearch | PostGIS_Search/postgissearch.py:232-236 | the scheduler state becomes `Schedule(old, sql, dict, now)` |
| PostgisSearch.PostGISSearch.OnSearchTextChanged | PostGIS_Search/postgissearch.py:139-204 | under 3 characters the suggestions are cleared; otherwise the inline query is scheduled |
| PostgisSearch.PostGISSearch.GetDbCur | PostGIS_Search/postgissearch.py:274-286 | a held connection is reused; otherwise one is opened with `ConnectArgs` |
| PostgisSearch.PostGISSearch.PerformSearch | PostGIS_Search/postgissearch.py:217-230 | both lists are rebuilt from the rows on the cached connection, or on a newly opened one (counted) when there is none |
| PostgisSearch.PostGISSearch.DoDbOperations | PostGIS_Search/postgissearch.py:206-215 | the scheduler state becomes `Tick(old, now)`, as in Discovery; a due query rebuilds the lists on the cached or a new connection; otherwise the lists and the held connection stay, unless idle for more than 60 s, when it is dropped |
| PostgisSearch.PostGISSearch.OnResultSelected | PostGIS_Search/postgissearch.py:238-266 | the new extent is the ±250 square around the centroid |
| Config.ConfigDialog.constructor | Discovery/config_dialog.py:70-81 | the five combos are loaded from the stored setting |
| Config.ConfigDialog.LoadDisplayColumns | Discovery/config_dialog.py:70-81 | an empty setting changes nothing; otherwise piece `i` goes to combo `i` for the first five pieces |
| Config.ConfigDialog.DisplayColumns | Discovery/config_dialog.py:147-156 | the non-empty combo texts in order, joined with `,` |
| Config.DisplayTextSplits | Discovery/config_dialog.py:147-156 | for comma-free combos, the setting splits back into the non-empty texts; all empty gives "" |
| Config.ReopenPacks | Discovery/config_dialog.py:70-81 | save then reopen moves the non-empty texts to the front in order and empties the rest |
| Config.NoGapsRoundTrip | Discovery/config_dialog.py:70-81 | combos filled from the front without gaps come back unchanged |
| Config.SettingRoundTrip | Discovery/config_dialog.py:147-156 | a setting of 1 to 5 non-empty names, loaded and saved, is the same setting |
| Config.ExtraNamesDropped | Discovery/config_dialog.py:70-81 | names after the fifth are dropped on loading |

## Left out

- I/O is replaced by parameters: the Qt widgets and signals, QGIS settings storage, the database drivers, the connection dialogs and `QgsMessageBar` messages. This includes `make_enabled`'s widget text, `clear_suggestions`' completer model and `reset_line_edit_after_move`.
- Clock and timers: `time.time()` is an integer millisecond parameter. The 100 ms timer that calls `do_db_operations` is the caller. The marker's single-shot timers are the counter `pendingHideTimers`.
- Discovery.ShownFadesInElevenCalls, Discovery.DiscoveryPlugin.HideMarker: opacity is counted in integer tenths, not floating point. Python's float loop (`opacity -= 0.1` until `<= 0`) makes one more call than the tenths model, so the float version takes 12 calls where the model takes 11.
- Coordinate reprojection: `QgsCoordinateTransform`, `transformBoundingBox`, `QgsGeometry.fromWkt` and the centroid are not modelled; the reprojected centroid is a parameter.
- The extent computed from a scale (`rect.scale(...)`) is not modelled. The model stops at the target scale denominator.
- `QgsRectangle`'s normalisation of swapped corners is not modelled.
- The QGIS expression engine: parsing, `referencedColumns` and evaluation are function parameters.
- Python's `float()` is a partial-function parameter.
- Config: every display combo is taken to accept any name (editable). On a non-editable combo without that item, `set_combo_current_text` (config_dialog.py:92-94) leaves the combo unchanged; the round trips `Config.ReopenPacks`, `Config.NoGapsRoundTrip` and `Config.SettingRoundTrip` rest on this.
- An evaluated expression value is NULL, a text, an integer or a float; other QGIS value types (dates, geometries) are not modelled.
- Oracle's `is_number(limit)` and `int(limit)` are one given `Option<int>`. `int()` raising on a text such as "1.5" that `is_number` accepts is not modelled.
- The unreachable `'Move'` branch of `on_result_selected` (discoveryplugin.py:278-283) is not modelled: the zoom method is the constant 'Move and Zoom'.
- Discovery.DiscoveryPlugin.constructor: `display_time` starts at 0. The source reads it from a `settings` name that is not defined at that point (discoveryplugin.py:117), so construction fails there.
- LIKE/ILIKE/LOWER case folding is not modelled: `LikeMatches` compares characters exactly.
- Collation and database-side escaping rules are not modelled either.
- `execute` and `fetchall` results are not modelled: the rows are a parameter.
  - Discovery.DiscoveryPlugin.PerformSearch requires every row to hold 3 plus the extra columns, where the source raises IndexError.
  - PostgisSearch.PostGISSearch.PerformSearch requires rows of exactly three columns, where the source's tuple unpacking raises.
- OracleSql.GetSearchSql: the parameter dictionary the source also builds is dropped from the result, because the caller never uses it.
- The Oracle `setUserName`/`setPassword` calls and the `open()` error path of every `get_connection` are not modelled.
- SQL Server's limit on the number of CONCAT_WS arguments is not modelled (at least two are needed).
- PostgisSearch.PostGISSearch.constructor takes the configuration as an argument. The postgis.ini parsing of `read_ini` is not part of this model.
- The root `postgissearch.py`, `locator_filter.py`, `gpkg_utils.py` and `utils.py` are not part of this model.
- Also not part of this model: `get_postgres_conn_info`, the connection lists, `list_schemas`/`list_tables`/`list_columns`, `connect_db` and the `populate_*` methods of the dialog, and `write_config`'s other settings.

## Findings

| source | as written | input that shows it | evidently intended | confidence | as-written member | corrected member |
|---|---|---|---|---|---|---|
| Discovery/dbutils.py:139-151 | with echo off, the first CASE clause has an empty separator and later ones `', '`. A NULL first display column makes the second value start with `', '`. The `'', ` strip (152-155) never fires. | display "a,b", row a = NULL, b = "x" | the non-NULL values joined with ", " (`"x"`), as CONCAT_WS gives | not executed | SuggestionEval.EchoOffLeadingSeparator | SuggestionEval.ConcatWsNoLeadingSeparator |
| Discovery/mssql_utils.py:103-105 | `_quote_brackets` doubles `"` instead of `]` | column name `a]b` gives `[a]b]`, read as the name `a` | `]` doubled, so every name reads back whole | not executed | MssqlSql.QuoteBracketsEndsAtBracket | MssqlSql.QuoteBracketsEscapedReadsBack |
| Discovery/oracle_utils.py:159-160 | the pattern is spliced unescaped into `LOWER('...')` | search text "o'neil" | the body escaped as `_quote_str` does, so the literal is the whole pattern | not executed | OracleSql.QuotedSearchMisread | OracleSql.EscapedPatternReadsBack |
| Discovery/mssql_utils.py:134-135 | the pattern is spliced unescaped into `'...'` | a pattern `a'b`, e.g. search text "o'neil" | quotes doubled, so the literal is the whole pattern | not executed | MssqlSql.QuoteEndsPatternLiteral | MssqlSql.EscapedPatternReadsBack |
| PostGIS_Search/postgissearch.py:182-191 | the display setting is split with no length guard | an empty display column setting gives a CASE clause on `""`, a zero-length identifier PostgreSQL rejects | no clause for an empty setting, as Discovery's `len(display_columns) > 0` guard does | not executed | PostgisSearch.EmptyDisplayNamesEmptyColumn | PostgisSearch.GuardedClausesNameColumns |
