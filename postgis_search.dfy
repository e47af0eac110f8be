/**
 * PostGIS Search (PostGIS_Search/postgissearch.py), the earlier plugin
 * Discovery grew from: the query built inline in `on_search_text_changed`,
 * the same debounced scheduler and connection cache, results as
 * (geometry, SRID) pairs, and a fixed 500-unit square around the pick.
 *
 * The configuration `read_ini` reads from postgis.ini is given to the
 * constructor; reading the file is not part of this model.
 */
module PostgisSearch {
  import opened Wrappers
  import opened Text
  import opened Wildcard
  import opened Rows
  import opened Scheduling
  import opened Navigation
  import PostgresSql

  // ---------------------------------------------------------------------------
  // The query (PostGIS_Search/postgissearch.py:173-202)
  // ---------------------------------------------------------------------------

  /** The geometry column is always the one named `geom`. */
  function GeomColumns(): string {
    " SELECT\n" + Spaces(28) + "ST_AsText(geom) AS geom,\n" + Spaces(28) + "ST_SRID(geom) AS epsg,\n" + Spaces(21)
  }

  /** The suggestion always starts with the search column. */
  function SelectionStart(searchColumn: string): string {
    "\"" + searchColumn + "\"\n" + Spaces(22)
  }

  /** `|| CASE WHEN "c" IS NOT NULL THEN ', ' || "c" ELSE '' END` for one display column. */
  function CaseClause(column: string): string {
    " || CASE WHEN \"" + column + "\" IS NOT NULL THEN\n" + Spaces(36) + "', ' || \"" + column + "\"\n"
    + Spaces(32) + "ELSE\n" + Spaces(36) + "''\n" + Spaces(32) + "END\n" + Spaces(26)
  }

  /** One clause per piece of `display.split(',')`, in order; the setting is split even when empty. */
  function ClauseList(display: string): (clauses: seq<string>)
    ensures |clauses| == |Split(display, ',')|
  {
    var columns := Split(display, ',');
    seq(|columns|, i requires 0 <= i < |columns| => CaseClause(columns[i]))
  }

  /** The alias, FROM and WHERE, ending in the ILIKE on the search column. */
  function FromWhere(schema: string, table: string, searchColumn: string): string {
    " AS suggestion_string\n" + Spaces(22) + "FROM\n" + Spaces(28) + "\"" + schema + "\".\"" + table + "\"\n"
    + Spaces(25) + "WHERE\n" + Spaces(28) + "\"" + searchColumn + "\" ILIKE\n" + Spaces(22)
  }

  function Placeholder(): string {
    "   %(search_text)s\n" + Spaces(22)
  }

  function OrderLimit(searchColumn: string): string {
    "ORDER BY\n" + Spaces(28) + "\"" + searchColumn + "\"\n" + Spaces(24) + "LIMIT 20\n" + Spaces(22)
  }

  /** The query text and parameters the edit handler schedules. */
  function SearchSql(searchText: string, searchColumn: string, display: string, schema: string,
                     table: string): PostgresSql.Query
  {
    PostgresSql.Query(
      Appended(GeomColumns() + SelectionStart(searchColumn), ClauseList(display))
      + FromWhere(schema, table, searchColumn) + Placeholder() + OrderLimit(searchColumn),
      map["search_text" := SearchPattern(searchText)])
  }

  /** The builder as written inline: the pattern loop, then the text appended piece by piece. */
  method BuildSearchSql(searchText: string, searchColumn: string, display: string, schema: string,
                        table: string) returns (q: PostgresSql.Query)
    ensures q == SearchSql(searchText, searchColumn, display, schema, table)
  {
    var pattern := BuildPattern(searchText);
    var qDic := map["search_text" := pattern];
    var queryText := GeomColumns();
    queryText := queryText + SelectionStart(searchColumn);
    queryText := AppendCaseClauses(queryText, display);
    queryText := queryText + FromWhere(schema, table, searchColumn);
    queryText := queryText + Placeholder();
    queryText := queryText + OrderLimit(searchColumn);
    q := PostgresSql.Query(queryText, qDic);
  }

  /** The display-column loop: one CASE clause appended per piece of the split setting. */
  method AppendCaseClauses(head: string, display: string) returns (text: string)
    ensures text == Appended(head, ClauseList(display))
  {
    var columns := Split(display, ',');
    ghost var clauses := ClauseList(display);
    text := head;
    for i := 0 to |columns|
      invariant text == Appended(head, clauses[..i])
    {
      assert clauses[..i + 1][..i] == clauses[..i];
      text := text + CaseClause(columns[i]);
    }
    assert clauses[..|columns|] == clauses;
  }

  /**
   * The query is the fixed geometry columns, the search column, one CASE
   * clause for every piece of the display setting in order, and the tail;
   * the user's text travels only as the `search_text` parameter, and the
   * text ends with the ORDER BY on the search column and `LIMIT 20`.
   */
  lemma QueryShape(text1: string, text2: string, searchColumn: string, display: string, schema: string,
                   table: string)
    ensures var q1 := SearchSql(text1, searchColumn, display, schema, table);
            var q2 := SearchSql(text2, searchColumn, display, schema, table);
            && q1.text == GeomColumns() + SelectionStart(searchColumn) + Concat(ClauseList(display))
                          + FromWhere(schema, table, searchColumn) + Placeholder() + OrderLimit(searchColumn)
            && q1.text == q2.text
            && q1.params == map["search_text" := SearchPattern(text1)]
            && q1.text[|q1.text| - |OrderLimit(searchColumn)|..] == OrderLimit(searchColumn)
  {
    AppendedIsConcat(GeomColumns() + SelectionStart(searchColumn), ClauseList(display));
  }

  /**
   * An empty display setting still yields one clause, on the column `""`:
   * `"".split(',')` is `[""]`, and the loop has no guard against it.
   */
  lemma EmptyDisplayNamesEmptyColumn()
    ensures ClauseList("") == [CaseClause("")]
  {
    assert Split("", ',') == [""];
  }

  /**
   * With Discovery's guard (no clause for an empty setting, as in
   * `PostgresSql.DisplayList`), an empty setting adds no clause, and a
   * setting without empty pieces puts no `""` column in any clause.
   */
  function GuardedClauseList(display: string): (clauses: seq<string>)
    ensures |clauses| == |PostgresSql.DisplayList(display)|
  {
    var columns := PostgresSql.DisplayList(display);
    seq(|columns|, i requires 0 <= i < |columns| => CaseClause(columns[i]))
  }

  lemma GuardedClausesNameColumns(display: string)
    ensures display == "" ==> GuardedClauseList(display) == []
    ensures display != "" ==> GuardedClauseList(display) == ClauseList(display)
    ensures (forall i :: 0 <= i < |Split(display, ',')| ==> Split(display, ',')[i] != "") ==>
              forall i :: 0 <= i < |GuardedClauseList(display)| ==>
                GuardedClauseList(display)[i] == CaseClause(Split(display, ',')[i]) && Split(display, ',')[i] != ""
  {
  }

  // ---------------------------------------------------------------------------
  // The plugin object (PostGIS_Search/postgissearch.py:139-286)
  // ---------------------------------------------------------------------------

  /** The postgis.ini settings `read_ini` reads. */
  datatype IniConfig = IniConfig(database: string, username: string, password: string, host: string,
                                 port: string, schema: string, table: string, searchColumn: string,
                                 displayColumn: string)

  /** The keyword arguments of `psycopg2.connect`; an absent one is not passed. */
  datatype ConnectParams = ConnectParams(database: string, user: Option<string>, password: Option<string>,
                                         host: Option<string>, port: Option<string>)

  /**
   * `get_db_cur`'s connect arguments: the database alone when no user name
   * is configured (a local connection), else all five settings.
   */
  function ConnectArgs(c: IniConfig): (p: ConnectParams)
    ensures p.database == c.database
    ensures p.user.None? <==> c.username == ""
    ensures p.user.None? ==> p.password.None? && p.host.None? && p.port.None?
    ensures p.user.Some? ==> p == ConnectParams(c.database, Some(c.username), Some(c.password), Some(c.host),
                                                Some(c.port))
  {
    if |c.username| == 0 then ConnectParams(c.database, None, None, None, None)
    else ConnectParams(c.database, Some(c.username), Some(c.password), Some(c.host), Some(c.port))
  }

  /** An open connection, by the order in which connections were opened. */
  datatype Connection = Connection(serial: nat, params: ConnectParams)

  /** One entry of `search_results`. */
  datatype Located = Located(geom: Value, epsg: Value)

  /** `for geom, epsg, suggestion_text in cur.fetchall()`: every row has exactly three columns. */
  predicate Triples(rows: seq<Row>) {
    forall i :: 0 <= i < |rows| ==> |rows[i]| == 3
  }

  function Locations(rows: seq<Row>): (ls: seq<Located>)
    requires Triples(rows)
    ensures |ls| == |rows|
  {
    seq(|rows|, i requires 0 <= i < |rows| => Located(rows[i][0], rows[i][1]))
  }

  function SuggestionTexts(rows: seq<Row>): (ss: seq<Value>)
    requires Triples(rows)
    ensures |ss| == |rows|
  {
    seq(|rows|, i requires 0 <= i < |rows| => rows[i][2])
  }

  /** The row loop of `perform_search`: both lists rebuilt, entry `i` of each from row `i`. */
  method FetchLocations(rows: seq<Row>) returns (results: seq<Located>, texts: seq<Value>)
    requires Triples(rows)
    ensures results == Locations(rows) && texts == SuggestionTexts(rows)
  {
    results := [];
    texts := [];
    for i := 0 to |rows|
      invariant results == Locations(rows)[..i] && texts == SuggestionTexts(rows)[..i]
    {
      results := results + [Located(rows[i][0], rows[i][1])];
      texts := texts + [rows[i][2]];
    }
  }

  class PostGISSearch {
    var nextQueryTime: Option<int>
    var lastQueryTime: int
    var dbConn: Option<Connection>
    var connectionsOpened: nat
    var querySql: string
    var queryDict: map<string, string>
    var queryText: string
    var searchResults: seq<Located>
    var suggestions: seq<Value>
    const config: IniConfig

    function SchedulerState(): Scheduler
      reads this
    {
      Scheduler(nextQueryTime, lastQueryTime, querySql, queryDict, dbConn.Some?)
    }

    /** `__init__` followed by `read_ini`. */
    constructor(now: int, ini: IniConfig)
      ensures SchedulerState() == Scheduler(None, now, "", map[], false)
      ensures config == ini && queryText == "" && searchResults == [] && suggestions == []
      ensures connectionsOpened == 0
    {
      nextQueryTime := None;
      lastQueryTime := now;
      dbConn := None;
      connectionsOpened := 0;
      querySql := "";
      queryDict := map[];
      queryText := "";
      searchResults := [];
      suggestions := [];
      config := ini;
    }

    method ScheduleSearch(sql: string, dict: map<string, string>, now: int)
      modifies this`querySql, this`queryDict, this`nextQueryTime
      ensures SchedulerState() == Schedule(old(SchedulerState()), sql, dict, now)
    {
      querySql := sql;
      queryDict := dict;
      nextQueryTime := Some(now + SearchDelay);
    }

    /**
     * `on_search_text_changed`: a text shorter than three characters only
     * clears the suggestions; a longer one schedules the query built from it.
     */
    method OnSearchTextChanged(newSearchText: string, now: int)
      modifies this`queryText, this`suggestions, this`querySql, this`queryDict, this`nextQueryTime
      ensures queryText == newSearchText
      ensures |newSearchText| < 3 ==> suggestions == [] && SchedulerState() == old(SchedulerState())
      ensures |newSearchText| >= 3 ==>
                var q := SearchSql(newSearchText, config.searchColumn, config.displayColumn, config.schema,
                                   config.table);
                suggestions == old(suggestions) && SchedulerState() == Schedule(old(SchedulerState()), q.text, q.params, now)
    {
      queryText := newSearchText;
      if |newSearchText| < 3 {
        suggestions := [];
        return;
      }
      var q := BuildSearchSql(newSearchText, config.searchColumn, config.displayColumn, config.schema, config.table);
      ScheduleSearch(q.text, q.params, now);
    }

    /** `get_db_cur`: reuse the held connection, or connect with the configured arguments. */
    method GetDbCur() returns (cursor: Connection)
      modifies this`dbConn, this`connectionsOpened
      ensures dbConn == Some(cursor)
      ensures old(dbConn).Some? ==> cursor == old(dbConn).value && connectionsOpened == old(connectionsOpened)
      ensures old(dbConn).None? ==> cursor == Connection(old(connectionsOpened), ConnectArgs(config))
                                    && connectionsOpened == old(connectionsOpened) + 1
    {
      if dbConn.None? {
        dbConn := Some(Connection(connectionsOpened, ConnectArgs(config)));
        connectionsOpened := connectionsOpened + 1;
      }
      cursor := dbConn.value;
    }

    /** `perform_search`: run the pending query and replace both lists from its rows. */
    method PerformSearch(rows: seq<Row>)
      requires Triples(rows)
      modifies this`dbConn, this`connectionsOpened, this`searchResults, this`suggestions
      ensures dbConn.Some? && (old(dbConn).Some? ==> dbConn == old(dbConn))
      ensures old(dbConn).Some? ==> connectionsOpened == old(connectionsOpened)
      ensures old(dbConn).None? ==> dbConn == Some(Connection(old(connectionsOpened), ConnectArgs(config)))
                                    && connectionsOpened == old(connectionsOpened) + 1
      ensures searchResults == Locations(rows) && suggestions == SuggestionTexts(rows)
    {
      var cursor := GetDbCur();
      searchResults, suggestions := FetchLocations(rows);
    }

    /** `do_db_operations`: as in Discovery, run a due query once, else drop an idle connection. */
    method DoDbOperations(now: int, rows: seq<Row>)
      requires Due(SchedulerState(), now) ==> Triples(rows)
      modifies this`nextQueryTime, this`lastQueryTime, this`dbConn, this`connectionsOpened,
               this`searchResults, this`suggestions
      ensures SchedulerState() == Tick(old(SchedulerState()), now)
      ensures Due(old(SchedulerState()), now) ==>
                searchResults == Locations(rows) && suggestions == SuggestionTexts(rows)
      ensures Due(old(SchedulerState()), now) && old(dbConn).Some? ==>
                dbConn == old(dbConn) && connectionsOpened == old(connectionsOpened)
      ensures Due(old(SchedulerState()), now) && old(dbConn).None? ==>
                dbConn == Some(Connection(old(connectionsOpened), ConnectArgs(config)))
                && connectionsOpened == old(connectionsOpened) + 1
      ensures !Due(old(SchedulerState()), now) ==>
                searchResults == old(searchResults) && suggestions == old(suggestions)
                && connectionsOpened == old(connectionsOpened)
                && dbConn == (if now > old(lastQueryTime) + DbIdleTime then None else old(dbConn))
    {
      if nextQueryTime.Some? && nextQueryTime.value < now {
        nextQueryTime := None;
        lastQueryTime := now;
        PerformSearch(rows);
      } else {
        if now > lastQueryTime + DbIdleTime {
          dbConn := None;
        }
      }
    }

    /**
     * `on_result_selected`: the new extent is the square of side 500 centred
     * on the picked result's reprojected centroid.
     */
    method OnResultSelected(index: nat, centroid: Point) returns (extent: Rect)
      requires index < |searchResults|
      ensures extent == SquareAround(centroid)
    {
      var scale := 250.0;
      extent := Rect(centroid.x - scale, centroid.y - scale, centroid.x + scale, centroid.y + scale);
    }
  }
}
