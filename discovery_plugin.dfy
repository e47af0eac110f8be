/**
 * The `DiscoveryPlugin` object of Discovery/discoveryplugin.py: the query
 * scheduler and connection cache, the result list behind the completer,
 * the configuration gate, the choice of where to zoom and the marker fade.
 *
 * The host application is outside the model: the clock is a millisecond
 * parameter, the rows a query returns are a parameter of the tick that runs
 * it, the expression parser and evaluator and `float()` are function
 * parameters, and a result's reprojected centroid is given. Qt timers are
 * modelled by `pendingHideTimers`, the number of armed single-shot timers
 * that will call `hide_marker`. Marker opacity is in tenths (10 is 1.0).
 */
module Discovery {
  import opened Wrappers
  import opened Rows
  import opened Scheduling
  import opened Navigation
  import PostgresSql

  // ---------------------------------------------------------------------------
  // Result rows (Discovery/discoveryplugin.py:222-239)
  // ---------------------------------------------------------------------------

  /** One entry of `search_results`: geometry, SRID and the extra columns by name. */
  datatype SearchResult = SearchResult(geom: Value, epsg: Value, extraData: map<string, Value>)

  /**
   * `extra_data[extra_col] = row[3 + idx]` for each extra expression column
   * in order; a column listed twice keeps its last position's value.
   */
  function ExtraData(columns: seq<string>, row: Row): map<string, Value>
    requires |row| >= 3 + |columns|
    decreases |columns|
  {
    if columns == [] then map[]
    else
      var n := |columns| - 1;
      ExtraData(columns[..n], row)[columns[n] := row[3 + n]]
  }

  /** The `search_results` entry for one row. */
  function ResultOf(row: Row, columns: seq<string>): SearchResult
    requires |row| >= 3 + |columns|
  {
    SearchResult(row[0], row[1], ExtraData(columns, row))
  }

  /** Every row holds the three fixed columns and the extra ones. */
  predicate RowsFit(rows: seq<Row>, columns: seq<string>) {
    forall i :: 0 <= i < |rows| ==> |rows[i]| >= 3 + |columns|
  }

  /** `search_results` after `perform_search`: one entry per row, in row order. */
  function Results(rows: seq<Row>, columns: seq<string>): (rs: seq<SearchResult>)
    requires RowsFit(rows, columns)
    ensures |rs| == |rows|
  {
    seq(|rows|, i requires 0 <= i < |rows| => ResultOf(rows[i], columns))
  }

  /** The completer's list after `perform_search`: column 2 of each row, in row order. */
  function Suggestions(rows: seq<Row>): (ss: seq<Value>)
    requires forall i :: 0 <= i < |rows| ==> |rows[i]| >= 3
    ensures |ss| == |rows|
  {
    seq(|rows|, i requires 0 <= i < |rows| => rows[i][2])
  }

  /**
   * The extra data holds exactly the extra columns, and a column's value is
   * the row's value at `3 + k`, where `k` is the column's last position in
   * the list (its only one, when the scale and bbox expressions share none).
   */
  lemma {:induction false} ExtraDataPositions(columns: seq<string>, row: Row)
    requires |row| >= 3 + |columns|
    ensures forall c :: c in ExtraData(columns, row) <==> c in columns
    ensures forall k :: 0 <= k < |columns| && columns[k] !in columns[k + 1..] ==>
              ExtraData(columns, row)[columns[k]] == row[3 + k]
    decreases |columns|
  {
    if columns != [] {
      var n := |columns| - 1;
      var front := columns[..n];
      ExtraDataPositions(front, row);
      assert columns == front + [columns[n]];
      forall k | 0 <= k < |columns| && columns[k] !in columns[k + 1..]
        ensures ExtraData(columns, row)[columns[k]] == row[3 + k]
      {
        if k < n {
          assert columns[k + 1..][n - k - 1] == columns[n];
          assert front[k + 1..] == columns[k + 1..n];
        }
      }
    }
  }

  /**
   * Suggestion `i` and result `i` come from the same row: picking entry `i`
   * of the completer selects the geometry, SRID and extra data of the row
   * whose suggestion text it shows.
   */
  lemma ResultsAligned(rows: seq<Row>, columns: seq<string>, i: nat)
    requires RowsFit(rows, columns) && i < |rows|
    ensures |Results(rows, columns)| == |Suggestions(rows)|
    ensures Suggestions(rows)[i] == rows[i][2]
    ensures Results(rows, columns)[i].geom == rows[i][0] && Results(rows, columns)[i].epsg == rows[i][1]
  {
  }

  // ---------------------------------------------------------------------------
  // Configuration (Discovery/discoveryplugin.py:299-360)
  // ---------------------------------------------------------------------------

  /** The `/Discovery` settings group, already converted to the types `read_config` asks for. */
  datatype Settings = Settings(connection: string, schema: string, table: string, searchColumn: string,
                               echoSearchColumn: bool, displayColumns: string, geomColumn: string,
                               timerChecked: bool, displayTime: int, scaleExpr: string, bboxExpr: string)

  /** The five settings the search cannot do without are all non-empty. */
  predicate Complete(s: Settings) {
    |s.connection| != 0 && |s.schema| != 0 && |s.table| != 0 && |s.searchColumn| != 0 && |s.geomColumn| != 0
  }

  /**
   * An optional expression as accepted: None when unset or when the parser
   * rejects it. `parse` gives the referenced columns, or None for a parser error.
   */
  function Accepted(expr: string, parse: string -> Option<seq<string>>): (r: Option<string>)
    ensures r.Some? <==> |expr| != 0 && parse(expr).Some?
    ensures r.Some? ==> r.value == expr
  {
    if |expr| != 0 && parse(expr).Some? then Some(expr) else None
  }

  /** The columns an optional expression contributes: its references when accepted, none otherwise. */
  function References(expr: string, parse: string -> Option<seq<string>>): (cs: seq<string>)
    ensures Accepted(expr, parse).None? ==> cs == []
  {
    if |expr| != 0 && parse(expr).Some? then parse(expr).value else []
  }

  // ---------------------------------------------------------------------------
  // Markers (Discovery/discoveryplugin.py:374-394)
  // ---------------------------------------------------------------------------

  /** A vertex marker: where it is, its opacity in tenths, and whether it is shown. */
  datatype MarkerState = MarkerState(center: Option<Point>, opacity: int, visible: bool)

  /** Both markers after `show_marker(point)`: centred on the point, fully opaque, visible. */
  function Shown(point: Point): MarkerState {
    MarkerState(Some(point), 10, true)
  }

  /**
   * One `hide_marker` step for a marker, given the first marker's opacity:
   * a tenth less opaque while that is positive, hidden once it is not.
   */
  function FadeStep(m: MarkerState, opacity: int): MarkerState {
    if opacity > 0 then m.(opacity := opacity - 1) else m.(visible := false)
  }

  /** A marker after `n` calls of `hide_marker` (the first marker drives the fade). */
  function Faded(m: MarkerState, n: nat): MarkerState
    decreases n
  {
    if n == 0 then m else Faded(FadeStep(m, m.opacity), n - 1)
  }

  /**
   * The fade ends: from opacity `o` >= 0, `o` calls bring the marker to
   * opacity 0, still visible and each re-arming the timer, and the next call
   * hides it without re-arming, so a chain makes `o + 1` calls in all.
   */
  lemma {:induction false} FadeEnds(m: MarkerState)
    requires m.opacity >= 0
    ensures Faded(m, m.opacity) == m.(opacity := 0)
    ensures Faded(m, m.opacity + 1) == m.(opacity := 0, visible := false)
    ensures forall j :: 0 <= j < m.opacity ==> Faded(m, j).opacity > 0
    decreases m.opacity
  {
    if m.opacity > 0 {
      var next := FadeStep(m, m.opacity);
      FadeEnds(next);
      assert next.(opacity := 0) == m.(opacity := 0);
      forall j | 0 <= j < m.opacity ensures Faded(m, j).opacity > 0 {
        if j > 0 {
          assert Faded(m, j) == Faded(next, j - 1);
        }
      }
    }
  }

  /** A marker just shown is hidden by the eleventh call of the fade, the first ten each re-arming the timer. */
  lemma ShownFadesInElevenCalls(point: Point)
    ensures !Faded(Shown(point), 11).visible
    ensures forall j :: 0 <= j < 10 ==> Faded(Shown(point), j).visible && Faded(Shown(point), j).opacity > 0
  {
    var m := Shown(point);
    FadeEnds(m);
    forall j | 0 <= j < 10 ensures Faded(m, j).visible {
      VisibleWhileFading(m, j);
    }
  }

  lemma {:induction false} VisibleWhileFading(m: MarkerState, j: nat)
    requires m.visible && j <= m.opacity
    ensures Faded(m, j).visible
    decreases j
  {
    if j > 0 {
      VisibleWhileFading(FadeStep(m, m.opacity), j - 1);
    }
  }

  // ---------------------------------------------------------------------------
  // The plugin object
  // ---------------------------------------------------------------------------

  /** An open database connection, by the order in which connections were opened. */
  datatype Connection = Connection(serial: nat, connInfo: map<string, string>)

  class DiscoveryPlugin {
    // the scheduler and the connection cache
    var nextQueryTime: Option<int>
    var lastQueryTime: int
    var dbConn: Option<Connection>
    var connectionsOpened: nat
    var querySql: string
    var queryDict: map<string, string>
    var queryText: string

    // the results and the completer's list
    var searchResults: seq<SearchResult>
    var suggestions: seq<Value>

    // the configuration read by read_config
    var connInfo: map<string, string>
    var schema: string
    var table: string
    var searchColumn: string
    var echoSearchColumn: bool
    var displayColumns: string
    var geomColumn: string
    var extraExprColumns: seq<string>
    var scaleExpr: Option<string>
    var bboxExpr: Option<string>
    var enabled: bool

    // the two markers and their fade
    var marker: MarkerState
    var marker2: MarkerState
    var dontHideMarker: bool
    var displayTime: int
    var isDisplayed: bool
    var pendingHideTimers: nat

    /** The scheduler fields as one value. */
    function SchedulerState(): Scheduler
      reads this
    {
      Scheduler(nextQueryTime, lastQueryTime, querySql, queryDict, dbConn.Some?)
    }

    /** `__init__`: nothing pending, the last query stamped now, no connection, no results, both markers hidden. */
    constructor(now: int)
      ensures SchedulerState() == Scheduler(None, now, "", map[], false)
      ensures queryText == "" && searchResults == [] && suggestions == [] && connectionsOpened == 0
      ensures !marker.visible && !marker2.visible && !isDisplayed && pendingHideTimers == 0
      ensures !enabled && extraExprColumns == []
    {
      nextQueryTime := None;
      lastQueryTime := now;
      dbConn := None;
      connectionsOpened := 0;
      querySql := "";
      queryText := "";
      queryDict := map[];
      searchResults := [];
      suggestions := [];
      connInfo := map[];
      schema, table, searchColumn, echoSearchColumn := "", "", "", true;
      displayColumns, geomColumn := "", "";
      extraExprColumns := [];
      scaleExpr, bboxExpr := None, None;
      enabled := false;
      marker := MarkerState(None, 10, false);
      marker2 := MarkerState(None, 10, false);
      dontHideMarker := false;
      displayTime := 0;
      isDisplayed := false;
      pendingHideTimers := 0;
    }

    /** The settings `read_config` copies as they are. */
    predicate Stored(settings: Settings)
      reads this`schema, this`table, this`searchColumn, this`echoSearchColumn, this`displayColumns,
            this`geomColumn, this`dontHideMarker
    {
      && schema == settings.schema && table == settings.table && searchColumn == settings.searchColumn
      && echoSearchColumn == settings.echoSearchColumn && displayColumns == settings.displayColumns
      && geomColumn == settings.geomColumn && dontHideMarker == settings.timerChecked
    }

    /**
     * The outcome of the configuration gate: no connection held; search
     * enabled exactly when the five required settings are non-empty and the
     * connection exists; when enabled, each optional expression kept if it
     * parses and the extra columns the scale expression's references followed
     * by the bbox expression's; when disabled, no expression and no column.
     */
    predicate Gated(settings: Settings, connectionInfo: map<string, string>, parse: string -> Option<seq<string>>)
      reads this`dbConn, this`connInfo, this`enabled, this`scaleExpr, this`bboxExpr, this`extraExprColumns
    {
      && dbConn == None && connInfo == connectionInfo
      && (enabled <==> Complete(settings) && |connectionInfo| != 0)
      && scaleExpr == (if enabled then Accepted(settings.scaleExpr, parse) else None)
      && bboxExpr == (if enabled then Accepted(settings.bboxExpr, parse) else None)
      && extraExprColumns
         == if enabled then References(settings.scaleExpr, parse) + References(settings.bboxExpr, parse) else []
    }

    /** `schedule_search`: the new query replaces the pending one and is due half a second from now. */
    method ScheduleSearch(sql: string, dict: map<string, string>, now: int)
      modifies this`querySql, this`queryDict, this`nextQueryTime
      ensures SchedulerState() == Schedule(old(SchedulerState()), sql, dict, now)
    {
      querySql := sql;
      queryDict := dict;
      nextQueryTime := Some(now + SearchDelay);
    }

    /**
     * `on_search_text_changed`: the text is always recorded; a text shorter
     * than three characters only clears the suggestions (a query already
     * pending stays pending), a longer one schedules the PostgreSQL query
     * built from it and the configuration.
     */
    method OnSearchTextChanged(newSearchText: string, now: int)
      modifies this`queryText, this`suggestions, this`querySql, this`queryDict, this`nextQueryTime
      ensures queryText == newSearchText
      ensures |newSearchText| < 3 ==> suggestions == [] && SchedulerState() == old(SchedulerState())
      ensures |newSearchText| >= 3 ==>
                suggestions == old(suggestions)
                && SchedulerState() == Schedule(old(SchedulerState()), Search(newSearchText).text,
                                                Search(newSearchText).params, now)
    {
      queryText := newSearchText;
      if |newSearchText| < 3 {
        suggestions := [];
        return;
      }
      var q := PostgresSql.GetSearchSql(newSearchText, geomColumn, searchColumn, echoSearchColumn,
                                        displayColumns, extraExprColumns, schema, table);
      ScheduleSearch(q.text, q.params, now);
    }

    /** The query `dbutils.get_search_sql` builds for a text under the current configuration. */
    function Search(text: string): PostgresSql.Query
      reads this
    {
      PostgresSql.SearchSql(text, geomColumn, searchColumn, echoSearchColumn, displayColumns,
                            extraExprColumns, schema, table)
    }

    /**
     * `get_db_cur`: a held connection is reused; without one, a new
     * connection is opened from `conn_info`. The cursor is the connection's.
     */
    method GetDbCur() returns (cursor: Connection)
      modifies this`dbConn, this`connectionsOpened
      ensures dbConn == Some(cursor)
      ensures old(dbConn).Some? ==> cursor == old(dbConn).value && connectionsOpened == old(connectionsOpened)
      ensures old(dbConn).None? ==> cursor == Connection(old(connectionsOpened), connInfo)
                                    && connectionsOpened == old(connectionsOpened) + 1
    {
      if dbConn.None? {
        dbConn := Some(Connection(connectionsOpened, connInfo));
        connectionsOpened := connectionsOpened + 1;
      }
      cursor := dbConn.value;
    }

    /**
     * `perform_search`: the pending query runs on the cached connection and
     * both lists are rebuilt from the rows it returns, entry `i` of each from
     * row `i`.
     */
    method PerformSearch(rows: seq<Row>)
      requires RowsFit(rows, extraExprColumns)
      modifies this`dbConn, this`connectionsOpened, this`searchResults, this`suggestions
      ensures dbConn.Some? && (old(dbConn).Some? ==> dbConn == old(dbConn))
      ensures old(dbConn).Some? ==> connectionsOpened == old(connectionsOpened)
      ensures old(dbConn).None? ==> dbConn == Some(Connection(old(connectionsOpened), connInfo))
                                    && connectionsOpened == old(connectionsOpened) + 1
      ensures searchResults == Results(rows, extraExprColumns)
      ensures suggestions == Suggestions(rows)
    {
      var cursor := GetDbCur();
      searchResults, suggestions := FetchResults(rows, extraExprColumns);
    }

    /**
     * `do_db_operations`, one timer tick: a due query is marked done, stamped
     * and run on the rows the database returns for it; otherwise a connection
     * idle for more than a minute is dropped.
     */
    method DoDbOperations(now: int, rows: seq<Row>)
      requires Due(SchedulerState(), now) ==> RowsFit(rows, extraExprColumns)
      modifies this`nextQueryTime, this`lastQueryTime, this`dbConn, this`connectionsOpened,
               this`searchResults, this`suggestions
      ensures SchedulerState() == Tick(old(SchedulerState()), now)
      ensures Due(old(SchedulerState()), now) ==>
                searchResults == Results(rows, extraExprColumns) && suggestions == Suggestions(rows)
      ensures Due(old(SchedulerState()), now) ==>
                dbConn.Some? && (old(dbConn).Some? ==> dbConn == old(dbConn))
                && connectionsOpened == old(connectionsOpened) + (if old(dbConn).None? then 1 else 0)
      ensures Due(old(SchedulerState()), now) && old(dbConn).None? ==>
                dbConn == Some(Connection(old(connectionsOpened), connInfo))
      ensures !Due(old(SchedulerState()), now) ==>
                searchResults == old(searchResults) && suggestions == old(suggestions)
                && connectionsOpened == old(connectionsOpened)
                && dbConn == (if now > old(lastQueryTime) + DbIdleTime then None else old(dbConn))
    {
      if nextQueryTime.Some? && nextQueryTime.value < now {
        nextQueryTime := None;
        lastQueryTime := now;
        PerformSearch(rows);
      } else {
        if now > lastQueryTime + DbIdleTime {
          dbConn := None;
        }
      }
    }

    /**
     * `read_config`: the settings are stored, a marker kept on display is
     * faded one step, and the connection is always dropped. Search is enabled
     * exactly when the five required settings are non-empty and the named
     * connection exists; then each optional expression that parses is kept,
     * and the extra columns are the scale expression's references followed
     * by the bbox expression's.
     */
    method ReadConfig(settings: Settings, connectionInfo: map<string, string>,
                      parse: string -> Option<seq<string>>)
      modifies this`schema, this`table, this`searchColumn, this`echoSearchColumn, this`displayColumns,
               this`geomColumn, this`dontHideMarker, this`displayTime, this`isDisplayed, this`marker,
               this`marker2, this`pendingHideTimers, this`enabled, this`dbConn, this`connInfo,
               this`extraExprColumns, this`scaleExpr, this`bboxExpr
      ensures Stored(settings)
      ensures displayTime == if settings.timerChecked then old(displayTime) else settings.displayTime
      ensures !isDisplayed
      ensures old(isDisplayed) ==> marker == FadeStep(old(marker), old(marker).opacity)
                                   && marker2 == FadeStep(old(marker2), old(marker).opacity)
                                   && pendingHideTimers == old(pendingHideTimers) + if old(marker).opacity > 0 then 1 else 0
      ensures !old(isDisplayed) ==> marker == old(marker) && marker2 == old(marker2)
                                    && pendingHideTimers == old(pendingHideTimers)
      ensures Gated(settings, connectionInfo, parse)
    {
      StoreSettings(settings);
      HideIfDisplayed();
      ApplyConfig(settings, connectionInfo, parse);
    }

    /** A marker kept on display is faded one step and no longer counted as displayed. */
    method HideIfDisplayed()
      modifies this`isDisplayed, this`marker, this`marker2, this`pendingHideTimers
      ensures !isDisplayed
      ensures old(isDisplayed) ==> marker == FadeStep(old(marker), old(marker).opacity)
                                   && marker2 == FadeStep(old(marker2), old(marker).opacity)
                                   && pendingHideTimers == old(pendingHideTimers) + if old(marker).opacity > 0 then 1 else 0
      ensures !old(isDisplayed) ==> marker == old(marker) && marker2 == old(marker2)
                                    && pendingHideTimers == old(pendingHideTimers)
    {
      if isDisplayed {
        HideMarker();
        isDisplayed := false;
      }
    }

    /**
     * The gate of `read_config`: search disabled and the connection dropped
     * first; enabled again only for a complete configuration whose connection
     * exists, and then the optional expressions are taken in.
     */
    method ApplyConfig(settings: Settings, connectionInfo: map<string, string>,
                       parse: string -> Option<seq<string>>)
      modifies this`enabled, this`dbConn, this`connInfo, this`extraExprColumns, this`scaleExpr, this`bboxExpr
      ensures Gated(settings, connectionInfo, parse)
    {
      enabled := false;
      dbConn := None;
      connInfo := connectionInfo;
      extraExprColumns := [];
      scaleExpr := None;
      bboxExpr := None;
      if !Complete(settings) {
        return;
      }
      if |connInfo| == 0 {
        return;
      }
      enabled := true;
      var scaleColumns, bboxColumns;
      scaleExpr, scaleColumns := AcceptExpression(settings.scaleExpr, parse);
      extraExprColumns := extraExprColumns + scaleColumns;
      assert extraExprColumns == scaleColumns;
      bboxExpr, bboxColumns := AcceptExpression(settings.bboxExpr, parse);
      extraExprColumns := extraExprColumns + bboxColumns;
    }

    /** The plain settings `read_config` copies into the object. */
    method StoreSettings(settings: Settings)
      modifies this`schema, this`table, this`searchColumn, this`echoSearchColumn, this`displayColumns,
               this`geomColumn, this`dontHideMarker, this`displayTime
      ensures Stored(settings)
      ensures displayTime == if settings.timerChecked then old(displayTime) else settings.displayTime
    {
      schema := settings.schema;
      table := settings.table;
      searchColumn := settings.searchColumn;
      echoSearchColumn := settings.echoSearchColumn;
      displayColumns := settings.displayColumns;
      geomColumn := settings.geomColumn;
      dontHideMarker := settings.timerChecked;
      if !dontHideMarker {
        displayTime := settings.displayTime;
      }
    }

    /**
     * `show_marker`: both markers centred on the point, opaque and visible;
     * kept on display when so configured, else a timer is armed to start the fade.
     */
    method ShowMarker(point: Point)
      modifies this`marker, this`marker2, this`isDisplayed, this`pendingHideTimers
      ensures marker == Shown(point) && marker2 == Shown(point)
      ensures dontHideMarker ==> isDisplayed && pendingHideTimers == old(pendingHideTimers)
      ensures !dontHideMarker ==> isDisplayed == old(isDisplayed) && pendingHideTimers == old(pendingHideTimers) + 1
    {
      marker := Shown(point);
      marker2 := Shown(point);
      if dontHideMarker {
        isDisplayed := true;
      } else {
        pendingHideTimers := pendingHideTimers + 1;
      }
    }

    /**
     * `hide_marker`: while the first marker is not transparent, both are made
     * a tenth less opaque and the timer re-armed; otherwise both are hidden.
     */
    method HideMarker()
      modifies this`marker, this`marker2, this`pendingHideTimers
      ensures marker == FadeStep(old(marker), old(marker).opacity)
      ensures marker2 == FadeStep(old(marker2), old(marker).opacity)
      ensures pendingHideTimers == old(pendingHideTimers) + if old(marker).opacity > 0 then 1 else 0
    {
      var opacity := marker.opacity;
      if opacity > 0 {
        opacity := opacity - 1;
        marker := marker.(opacity := opacity);
        marker2 := marker2.(opacity := opacity);
        pendingHideTimers := pendingHideTimers + 1;
      } else {
        marker := marker.(visible := false);
        marker2 := marker2.(visible := false);
      }
    }

    /** An armed single-shot timer fires and calls `hide_marker`. */
    method HideTimerFires()
      requires pendingHideTimers > 0
      modifies this`marker, this`marker2, this`pendingHideTimers
      ensures marker == FadeStep(old(marker), old(marker).opacity)
      ensures marker2 == FadeStep(old(marker2), old(marker).opacity)
      ensures pendingHideTimers == old(pendingHideTimers) - 1 + if old(marker).opacity > 0 then 1 else 0
    {
      pendingHideTimers := pendingHideTimers - 1;
      HideMarker();
    }

    /**
     * `on_result_selected`: the marker is shown at the result's centroid and
     * the target is chosen from the result's extra data, the bounding box
     * first, the scale otherwise. `eval` evaluates an expression on the extra
     * data. The target is None where the handler raises TypeError after the
     * marker is shown, so the canvas does not move.
     */
    method OnResultSelected(index: nat, centroid: Point,
                            eval: (string, map<string, Value>) -> Outcome,
                            parseFloat: string -> Option<real>) returns (target: Option<Target>)
      requires index < |searchResults|
      modifies this`marker, this`marker2, this`isDisplayed, this`pendingHideTimers
      ensures marker == Shown(centroid) && marker2 == Shown(centroid)
      ensures dontHideMarker ==> isDisplayed && pendingHideTimers == old(pendingHideTimers)
      ensures !dontHideMarker ==> isDisplayed == old(isDisplayed) && pendingHideTimers == old(pendingHideTimers) + 1
      ensures target == SelectedTarget(searchResults[index].extraData, eval, parseFloat)
    {
      var extraData := searchResults[index].extraData;
      ShowMarker(centroid);
      var bboxOutcome := if bboxExpr.Some? then eval(bboxExpr.value, extraData) else EvalError;
      var bbox := EvalExpression(bboxExpr, bboxOutcome, None);
      if bbox.Some? && !bbox.value.Text? {
        target := None;
        return;
      }
      var rect := BboxStrToRectangle(if bbox.Some? then Some(bbox.value.text) else None, parseFloat);
      if rect.Some? {
        target := Some(ZoomToRect(rect.value));
      } else {
        var scaleOutcome := if scaleExpr.Some? then eval(scaleExpr.value, extraData) else EvalError;
        var scale := EvalExpression(scaleExpr, scaleOutcome, Some(Float(DefaultScaleDenominator)));
        var denominator := Number(scale.value);
        target := if denominator.Some? then Some(ZoomToScale(denominator.value)) else None;
      }
    }

    /** Where the canvas goes for a result with the given extra data; None where the handler raises. */
    function SelectedTarget(extraData: map<string, Value>,
                            eval: (string, map<string, Value>) -> Outcome,
                            parseFloat: string -> Option<real>): Option<Target>
      reads this
    {
      ChooseTarget(bboxExpr, if bboxExpr.Some? then eval(bboxExpr.value, extraData) else EvalError,
                   scaleExpr, if scaleExpr.Some? then eval(scaleExpr.value, extraData) else EvalError,
                   parseFloat)
    }
  }

  /** The row loop of `perform_search`: both lists built entry by entry, in row order. */
  method FetchResults(rows: seq<Row>, columns: seq<string>) returns (results: seq<SearchResult>, texts: seq<Value>)
    requires RowsFit(rows, columns)
    ensures results == Results(rows, columns) && texts == Suggestions(rows)
  {
    results := [];
    texts := [];
    for i := 0 to |rows|
      invariant results == Results(rows, columns)[..i]
      invariant texts == Suggestions(rows)[..i]
    {
      var row := rows[i];
      var extraData := BuildExtraData(row, columns);
      results := results + [SearchResult(row[0], row[1], extraData)];
      texts := texts + [row[2]];
    }
  }

  /**
   * One optional expression of `read_config`: an unset one is skipped, one
   * the parser rejects is reported and skipped, one that parses is kept and
   * contributes the columns it references.
   */
  method AcceptExpression(expr: string, parse: string -> Option<seq<string>>)
    returns (accepted: Option<string>, columns: seq<string>)
    ensures accepted == Accepted(expr, parse) && columns == References(expr, parse)
  {
    accepted, columns := None, [];
    if |expr| != 0 {
      var parsed := parse(expr);
      if parsed.Some? {
        accepted := Some(expr);
        columns := parsed.value;
      }
    }
  }

  /** The inner loop of `perform_search`: the extra data of one row. */
  method BuildExtraData(row: Row, columns: seq<string>) returns (extraData: map<string, Value>)
    requires |row| >= 3 + |columns|
    ensures extraData == ExtraData(columns, row)
  {
    extraData := map[];
    for idx := 0 to |columns|
      invariant extraData == ExtraData(columns[..idx], row)
    {
      assert columns[..idx + 1][..idx] == columns[..idx];
      extraData := extraData[columns[idx] := row[3 + idx]];
    }
    assert columns[..|columns|] == columns;
  }
}
