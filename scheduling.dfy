/**
 * What the database hands back: a row is a sequence of column values.
 * Geometries arrive as WKT text, SRIDs as integers.
 */
module Rows {
  datatype Value = Null | Text(text: string) | Integer(n: int) | Float(x: real)

  type Row = seq<Value>
}

/**
 * The debounced query scheduler and the idle connection cache, shared in
 * the same shape by Discovery (Discovery/discoveryplugin.py:182-245,
 * 293-297) and PostGIS Search (PostGIS_Search/postgissearch.py:139-148,
 * 206-236, 274-286).
 *
 * Each edit of at least three characters builds a query and schedules it
 * half a second ahead, overwriting any query still pending; a 100 ms timer
 * calls `do_db_operations`, which runs the pending query once it is due and
 * otherwise drops the connection after a minute without queries. Time is an
 * integer number of milliseconds supplied by the caller.
 */
module Scheduling {
  import opened Wrappers

  /** `search_delay`, 0.5 s. */
  const SearchDelay: int := 500
  /** `db_idle_time`, 60 s. */
  const DbIdleTime: int := 60000

  /**
   * The scheduler fields: when the pending query may run (None when none is
   * pending), when the last query ran, the query and its parameters, and
   * whether a database connection is held.
   */
  datatype Scheduler = Scheduler(nextQueryTime: Option<int>, lastQueryTime: int, querySql: string,
                                 queryDict: map<string, string>, connected: bool)

  /** `schedule_search`: replace the pending query and set it due half a second from now. */
  function Schedule(s: Scheduler, sql: string, dict: map<string, string>, now: int): Scheduler {
    s.(querySql := sql, queryDict := dict, nextQueryTime := Some(now + SearchDelay))
  }

  /** A query is pending and its time has strictly passed. */
  predicate Due(s: Scheduler, now: int) {
    s.nextQueryTime.Some? && s.nextQueryTime.value < now
  }

  /**
   * One `do_db_operations` tick: a due query is marked done, stamped and run
   * (running it opens a connection if none is held); otherwise a connection
   * idle for more than a minute is dropped.
   */
  function Tick(s: Scheduler, now: int): Scheduler {
    if Due(s, now) then s.(nextQueryTime := None, lastQueryTime := now, connected := true)
    else if now > s.lastQueryTime + DbIdleTime then s.(connected := false)
    else s
  }

  /** Ticks at the given times, in order: the final state and how many ticks ran the query. */
  function Ticks(s: Scheduler, times: seq<int>): (Scheduler, nat)
    decreases |times|
  {
    if times == [] then (s, 0)
    else
      var r := Ticks(Tick(s, times[0]), times[1..]);
      (r.0, r.1 + if Due(s, times[0]) then 1 else 0)
  }

  /** An edit: the query it built, its parameters, and when it happened. */
  datatype Edit = Edit(sql: string, dict: map<string, string>, time: int)

  /** A burst of edits with no tick in between, scheduled one after the other. */
  function Burst(s: Scheduler, edits: seq<Edit>): Scheduler
    decreases |edits|
  {
    if edits == [] then s
    else
      var e := edits[|edits| - 1];
      Schedule(Burst(s, edits[..|edits| - 1]), e.sql, e.dict, e.time)
  }

  /**
   * A burst of edits leaves only the last one's query pending, due half a
   * second after the last edit: the earlier queries are never run.
   */
  lemma {:induction false} BurstKeepsLast(s: Scheduler, edits: seq<Edit>)
    requires edits != []
    ensures var e := edits[|edits| - 1];
            Burst(s, edits) == Schedule(s, e.sql, e.dict, e.time)
    decreases |edits|
  {
    var front := edits[..|edits| - 1];
    if front != [] {
      BurstKeepsLast(s, front);
    }
  }

  /** A scheduled query is not run by a tick within half a second of the edit, and is run by any later tick. */
  lemma DebounceDelay(s: Scheduler, sql: string, dict: map<string, string>, edit: int, now: int)
    ensures Due(Schedule(s, sql, dict, edit), now) <==> now > edit + SearchDelay
  {
  }

  /**
   * A pending query runs exactly once: over any ticks without a new edit, it
   * runs once if some tick comes after its due time and never otherwise.
   */
  lemma {:induction false} RunsOnce(s: Scheduler, times: seq<int>)
    requires s.nextQueryTime.Some?
    ensures Ticks(s, times).1 == if exists i :: 0 <= i < |times| && times[i] > s.nextQueryTime.value then 1 else 0
    decreases |times|
  {
    if times != [] {
      var t := s.nextQueryTime.value;
      if Due(s, times[0]) {
        NeverAgain(Tick(s, times[0]), times[1..]);
      } else {
        RunsOnce(Tick(s, times[0]), times[1..]);
        if exists i :: 0 <= i < |times[1..]| && times[1..][i] > t {
          var i :| 0 <= i < |times[1..]| && times[1..][i] > t;
          assert times[i + 1] > t;
        }
        if exists i :: 0 <= i < |times| && times[i] > t {
          var i :| 0 <= i < |times| && times[i] > t;
          assert i != 0;
          assert times[1..][i - 1] > t;
        }
      }
    }
  }

  /** With nothing pending, no tick runs a query. */
  lemma {:induction false} NeverAgain(s: Scheduler, times: seq<int>)
    requires s.nextQueryTime.None?
    ensures Ticks(s, times).1 == 0
    decreases |times|
  {
    if times != [] {
      NeverAgain(Tick(s, times[0]), times[1..]);
    }
  }

  /**
   * The connection is kept while queries come often enough: with nothing
   * pending, ticks up to a minute after the last query leave it as it is.
   */
  lemma {:induction false} ConnectionKept(s: Scheduler, times: seq<int>)
    requires s.nextQueryTime.None?
    requires forall i :: 0 <= i < |times| ==> times[i] <= s.lastQueryTime + DbIdleTime
    ensures Ticks(s, times).0 == s
    decreases |times|
  {
    if times != [] {
      assert Tick(s, times[0]) == s;
      ConnectionKept(s, times[1..]);
    }
  }

  /** A tick more than a minute after the last query, with nothing due, drops the connection. */
  lemma IdleDropsConnection(s: Scheduler, now: int)
    requires !Due(s, now) && now > s.lastQueryTime + DbIdleTime
    ensures !Tick(s, now).connected
    ensures Tick(s, now).nextQueryTime == s.nextQueryTime
  {
  }
}
