/**
 * What the suggestion expression the builders generate evaluates to on one
 * database row. The PostgreSQL/Oracle builders (Discovery/dbutils.py:136-152,
 * Discovery/oracle_utils.py:131-147) and the PostGIS Search builder
 * (PostGIS_Search/postgissearch.py:182-191) produce
 *
 *     start || CASE WHEN "c1" IS NOT NULL THEN 'sep1' || "c1" ELSE '' END || ...
 *
 * where `start` is the search column (echo on) or `''` (echo off) and
 * `sep1` is `', '` with echo on and `''` with echo off, every later
 * separator being `', '`. The SQL Server builder produces
 * `CONCAT_WS(', ', cols...)` (Discovery/mssql_utils.py:117-124).
 * The functions here follow that clause structure one clause per display
 * column; `||` is PostgreSQL's, where NULL on either side gives NULL.
 */
module SuggestionEval {
  import opened Wrappers
  import opened Text

  /** A database row as the expression sees it: column name to value, None for NULL. */
  type Row = string -> Option<string>

  /** The values of the given columns, in order. */
  function Values(row: Row, columns: seq<string>): (vs: seq<Option<string>>)
    ensures |vs| == |columns|
    ensures forall i :: 0 <= i < |columns| ==> vs[i] == row(columns[i])
  {
    if columns == [] then [] else [row(columns[0])] + Values(row, columns[1..])
  }

  /** The non-NULL values, in order. */
  function Present(vs: seq<Option<string>>): seq<string> {
    if vs == [] then []
    else (if vs[0].Some? then [vs[0].value] else []) + Present(vs[1..])
  }

  /** PostgreSQL `a || b`. */
  function PgConcat(a: Option<string>, b: Option<string>): Option<string> {
    if a.Some? && b.Some? then Some(a.value + b.value) else None
  }

  /** `CASE WHEN "c" IS NOT NULL THEN 'sep' || "c" ELSE '' END`: never NULL. */
  function CaseValue(row: Row, column: string, sep: string): string {
    if row(column).Some? then sep + row(column).value else ""
  }

  /** The CASE clauses in order: the first with `firstSep`, the others with `', '`. */
  function ClausesValue(row: Row, columns: seq<string>, firstSep: string): string {
    if columns == [] then ""
    else CaseValue(row, columns[0], firstSep) + ClausesValue(row, columns[1..], ", ")
  }

  /** The value of the whole `... AS suggestion_string` expression of the `||` builders. */
  function ConcatSuggestion(row: Row, echo: bool, searchColumn: string, columns: seq<string>): Option<string> {
    var start := if echo then row(searchColumn) else Some("");
    PgConcat(start, Some(ClausesValue(row, columns, if echo then ", " else "")))
  }

  /**
   * T-SQL `CONCAT_WS(sep, v1, v2, ...)`: the non-NULL values joined with
   * `sep`; the NULL ones contribute neither a value nor a separator.
   */
  function ConcatWs(sep: string, vs: seq<Option<string>>): string {
    Join(Present(vs), sep)
  }

  /** `sep + v` for each value, concatenated. */
  function EachPrefixed(vs: seq<string>, sep: string): string {
    if vs == [] then "" else sep + vs[0] + EachPrefixed(vs[1..], sep)
  }

  lemma {:induction false} ClausesWithSeparator(row: Row, columns: seq<string>)
    ensures ClausesValue(row, columns, ", ") == EachPrefixed(Present(Values(row, columns)), ", ")
    decreases |columns|
  {
    if columns != [] {
      var vs := Values(row, columns);
      ClausesWithSeparator(row, columns[1..]);
      assert vs[1..] == Values(row, columns[1..]);
      if row(columns[0]).Some? {
        assert Present(vs) == [row(columns[0]).value] + Present(vs[1..]);
      } else {
        assert Present(vs) == Present(vs[1..]);
      }
    }
  }

  lemma {:induction false} JoinAfterFirst(x: string, vs: seq<string>, sep: string)
    ensures x + EachPrefixed(vs, sep) == Join([x] + vs, sep)
    decreases |vs|
  {
    if vs != [] {
      JoinAfterFirst(vs[0], vs[1..], sep);
      assert ([x] + vs)[1..] == vs;
      assert [vs[0]] + vs[1..] == vs;
    }
  }

  /**
   * With echo on, the `||` expression is NULL-safe: when the search column
   * has a value (the LIKE on it guarantees that), the suggestion is the
   * search column followed by the non-NULL display columns, joined with
   * ", ", exactly as CONCAT_WS would give it.
   */
  lemma EchoOnIsNullSafe(row: Row, searchColumn: string, columns: seq<string>)
    requires row(searchColumn).Some?
    ensures ConcatSuggestion(row, true, searchColumn, columns)
         == Some(ConcatWs(", ", [row(searchColumn)] + Values(row, columns)))
  {
    ClausesWithSeparator(row, columns);
    JoinAfterFirst(row(searchColumn).value, Present(Values(row, columns)), ", ");
    assert ([row(searchColumn)] + Values(row, columns))[1..] == Values(row, columns);
  }

  /**
   * With echo off, the result is NULL-safe as long as the first display
   * column has a value: the empty first separator then lands on a value.
   */
  lemma EchoOffFirstPresent(row: Row, searchColumn: string, columns: seq<string>)
    requires columns != [] && row(columns[0]).Some?
    ensures ConcatSuggestion(row, false, searchColumn, columns) == Some(ConcatWs(", ", Values(row, columns)))
  {
    var v := row(columns[0]).value;
    var tail := Present(Values(row, columns[1..]));
    ClausesWithSeparator(row, columns[1..]);
    JoinAfterFirst(v, tail, ", ");
    PresentFirst(row, columns);
    ClausesFirstPresent(row, columns);
    var clauses := ClausesValue(row, columns, "");
    assert "" + clauses == clauses;
  }

  lemma PresentFirst(row: Row, columns: seq<string>)
    requires columns != [] && row(columns[0]).Some?
    ensures Present(Values(row, columns)) == [row(columns[0]).value] + Present(Values(row, columns[1..]))
  {
    assert Values(row, columns)[1..] == Values(row, columns[1..]);
  }

  lemma ClausesFirstPresent(row: Row, columns: seq<string>)
    requires columns != [] && row(columns[0]).Some?
    ensures ClausesValue(row, columns, "") == row(columns[0]).value + ClausesValue(row, columns[1..], ", ")
  {
    assert "" + row(columns[0]).value == row(columns[0]).value;
  }

  /**
   * As written, echo off is not NULL-safe: display columns "a,b" on a row
   * where a is NULL and b is "x" give the suggestion ", x" with a leading
   * separator, where the non-NULL values joined give "x".
   */
  lemma EchoOffLeadingSeparator(row: Row)
    requires row("a") == None && row("b") == Some("x")
    ensures ConcatSuggestion(row, false, "name", ["a", "b"]) == Some(", x")
    ensures ConcatWs(", ", Values(row, ["a", "b"])) == "x"
  {
    assert ["a", "b"][1..] == ["b"];
    assert ["b"][1..] == [];
    assert ClausesValue(row, ["b"], ", ") == ", x";
    assert ClausesValue(row, ["a", "b"], "") == ", x";
    assert Values(row, ["a", "b"]) == [None, Some("x")];
    assert Present([None, Some("x")]) == ["x"] by {
      assert [None, Some("x")][1..] == [Some("x")];
      assert [Some("x")][1..] == [];
    }
  }

  lemma {:induction false} PresentAppend(a: seq<Option<string>>, b: seq<Option<string>>)
    ensures Present(a + b) == Present(a) + Present(b)
    decreases |a|
  {
    if a == [] {
      assert a + b == b;
    } else {
      assert (a + b)[1..] == a[1..] + b;
      PresentAppend(a[1..], b);
    }
  }

  /**
   * CONCAT_WS is NULL-safe: a NULL value inserted anywhere changes nothing,
   * so no NULL can leave a leading, trailing or doubled separator behind.
   */
  lemma ConcatWsIgnoresNull(sep: string, vs: seq<Option<string>>, i: nat)
    requires i <= |vs|
    ensures ConcatWs(sep, vs[..i] + [None] + vs[i..]) == ConcatWs(sep, vs)
  {
    var none: seq<Option<string>> := [None];
    assert Present(none) == [] by { assert none[1..] == []; }
    PresentAppend(vs[..i] + none, vs[i..]);
    PresentAppend(vs[..i], none);
    PresentAppend(vs[..i], vs[i..]);
    assert vs[..i] + vs[i..] == vs;
    assert Present(vs[..i] + none) == Present(vs[..i]);
    assert Present(vs[..i] + none + vs[i..]) == Present(vs);
  }

  lemma {:induction false} FirstPresent(vs: seq<Option<string>>)
    requires Present(vs) != []
    ensures exists i :: 0 <= i < |vs| && vs[i] == Some(Present(vs)[0])
    decreases |vs|
  {
    if vs[0].None? {
      FirstPresent(vs[1..]);
      var i :| 0 <= i < |vs[1..]| && vs[1..][i] == Some(Present(vs[1..])[0]);
      assert vs[i + 1] == Some(Present(vs)[0]);
    } else {
      assert vs[0] == Some(Present(vs)[0]);
    }
  }

  /**
   * The suggestion as intended: the non-NULL values joined with ", ", which
   * CONCAT_WS gives. When no value is empty or starts with a comma, it never
   * starts with a separator, whichever values are NULL.
   */
  lemma ConcatWsNoLeadingSeparator(vs: seq<Option<string>>)
    requires forall i :: 0 <= i < |vs| && vs[i].Some? ==> vs[i].value != "" && vs[i].value[0] != ','
    ensures ConcatWs(", ", vs) == "" || ConcatWs(", ", vs)[0] != ','
  {
    var p := Present(vs);
    if p != [] {
      FirstPresent(vs);
      assert p[0] != "" && p[0][0] != ',';
      if |p| > 1 {
        assert Join(p, ", ") == p[0] + (", " + Join(p[1..], ", "));
      }
      assert ConcatWs(", ", vs)[0] == p[0][0];
    }
  }
}
