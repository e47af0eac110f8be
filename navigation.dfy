/**
 * Where the map goes when a search result is picked.
 *
 * Discovery (Discovery/discoveryplugin.py:33-74, 262-277) zooms to a bounding
 * box when the configured bbox expression yields a text "xmin,ymin,xmax,ymax"
 * that parses, and otherwise to a scale given by the scale expression, 1:2000
 * by default. PostGIS Search (PostGIS_Search/postgissearch.py:250-258) always
 * shows the fixed square 500 map units wide around the result.
 *
 * Coordinates are reals. Python's `float()` is a parameter of the model
 * (`None` where it raises ValueError), and so is the outcome of evaluating a
 * QGIS expression on a result's extra columns: an evaluation error, or a
 * value that may be NULL, a text or a number.
 */
module Navigation {
  import opened Wrappers
  import opened Text
  import opened Rows

  datatype Point = Point(x: real, y: real)

  /** A map rectangle as given to the host library: xmin, ymin, xmax, ymax. */
  datatype Rect = Rect(xMin: real, yMin: real, xMax: real, yMax: real)

  // ---------------------------------------------------------------------------
  // Expressions and the bounding-box text (Discovery/discoveryplugin.py:33-74)
  // ---------------------------------------------------------------------------

  /** What evaluating an expression on a result's extra data gives: an error, or a value (NULL included). */
  datatype Outcome = EvalError | Evaluated(value: Value)

  /**
   * `eval_expression(expr_text, extra_data, default)`: the default when no
   * expression is set (None or empty) or when evaluation reports an error;
   * otherwise whatever the expression evaluated to, NULL or a value of any
   * type, unchecked. `None` here is Python's None, which is not the same as
   * a NULL value (`Some(Null)`).
   */
  function EvalExpression(exprText: Option<string>, outcome: Outcome, default: Option<Value>): (r: Option<Value>)
    ensures exprText.None? || exprText == Some("") || outcome.EvalError? ==> r == default
    ensures exprText.Some? && exprText.value != "" && outcome.Evaluated? ==> r == Some(outcome.value)
  {
    if exprText.None? || |exprText.value| == 0 then default
    else if outcome.EvalError? then default
    else Some(outcome.value)
  }

  /**
   * `bbox_str_to_rectangle`: a rectangle exactly when the text is present,
   * non-empty, splits at `,` into four pieces and each piece parses as a
   * float; the four numbers are xmin, ymin, xmax, ymax in that order.
   */
  function BboxStrToRectangle(bboxStr: Option<string>, parseFloat: string -> Option<real>): (r: Option<Rect>)
    ensures r.Some? <==> bboxStr.Some? && |bboxStr.value| > 0 && |Split(bboxStr.value, ',')| == 4
                         && forall i :: 0 <= i < 4 ==> parseFloat(Split(bboxStr.value, ',')[i]).Some?
  {
    if bboxStr.None? || |bboxStr.value| == 0 then None
    else
      var coords := Split(bboxStr.value, ',');
      if |coords| != 4 then None
      else
        var xMin, yMin, xMax, yMax := parseFloat(coords[0]), parseFloat(coords[1]), parseFloat(coords[2]),
                                      parseFloat(coords[3]);
        if xMin.None? || yMin.None? || xMax.None? || yMax.None? then None
        else Some(Rect(xMin.value, yMin.value, xMax.value, yMax.value))
  }

  /** A rectangle written out as "xmin,ymin,xmax,ymax" with a given number format. */
  function BboxText(r: Rect, format: real -> string): string {
    format(r.xMin) + "," + format(r.yMin) + "," + format(r.xMax) + "," + format(r.yMax)
  }

  /**
   * The bbox text round-trips: written with any number format that float()
   * reads back and that puts no comma in a number, it is parsed into the
   * very rectangle it was written from.
   */
  lemma BboxReadsBack(r: Rect, format: real -> string, parseFloat: string -> Option<real>)
    requires forall x :: ',' !in format(x) && parseFloat(format(x)) == Some(x)
    ensures BboxStrToRectangle(Some(BboxText(r, format)), parseFloat) == Some(r)
  {
    var a, b, c, d := format(r.xMin), format(r.yMin), format(r.xMax), format(r.yMax);
    assert ',' !in a && ',' !in b && ',' !in c && ',' !in d;
    var parts := [a, b, c, d];
    assert Join(parts, [',']) == BboxText(r, format) by {
      assert parts[1..] == [b, c, d] && [b, c, d][1..] == [c, d] && [c, d][1..] == [d];
      assert Join([c, d], [',']) == c + [','] + d;
      assert Join([b, c, d], [',']) == b + [','] + (c + [','] + d);
    }
    SplitJoin(parts, ',');
  }

  /**
   * Any other number of comma-separated pieces is refused, whatever the
   * pieces hold: "1,2,3" and "1,2,3,4,5" give no rectangle.
   */
  lemma WrongCountRefused(parts: seq<string>, parseFloat: string -> Option<real>)
    requires |parts| >= 1 && |parts| != 4
    requires forall i :: 0 <= i < |parts| ==> ',' !in parts[i]
    ensures BboxStrToRectangle(Some(Join(parts, [','])), parseFloat) == None
  {
    SplitJoin(parts, ',');
  }

  // ---------------------------------------------------------------------------
  // The zoom choice (Discovery/discoveryplugin.py:262-277)
  // ---------------------------------------------------------------------------

  /** Where the canvas goes: onto a rectangle, or to a scale 1:denominator around the result. */
  datatype Target = ZoomToRect(rect: Rect) | ZoomToScale(denominator: real)

  const DefaultScaleDenominator: real := 2000.0

  /** A value Python can divide by a float: an integer or a float; NULL and text raise TypeError. */
  function Number(v: Value): (r: Option<real>)
    ensures r.Some? <==> v.Integer? || v.Float?
    ensures v.Integer? ==> r == Some(v.n as real)
    ensures v.Float? ==> r == Some(v.x)
  {
    match v
    case Integer(n) => Some(n as real)
    case Float(x) => Some(x)
    case _ => None
  }

  /**
   * The "Move and Zoom" choice: the bounding box when the bbox expression
   * gives one, otherwise the scale expression's value, 2000 by default.
   * None where the handler raises TypeError and the canvas does not move:
   * a bbox value that is not a text (`len()` of a number or of NULL,
   * line 60), or a scale value that is NULL or text (the division at
   * line 276).
   */
  function ChooseTarget(bboxExpr: Option<string>, bboxOutcome: Outcome,
                        scaleExpr: Option<string>, scaleOutcome: Outcome,
                        parseFloat: string -> Option<real>): Option<Target>
  {
    var bbox := EvalExpression(bboxExpr, bboxOutcome, None);
    if bbox.Some? && !bbox.value.Text? then None
    else
      var rect := BboxStrToRectangle(if bbox.Some? then Some(bbox.value.text) else None, parseFloat);
      if rect.Some? then Some(ZoomToRect(rect.value))
      else
        var scale := EvalExpression(scaleExpr, scaleOutcome, Some(Float(DefaultScaleDenominator)));
        var denominator := Number(scale.value);
        if denominator.Some? then Some(ZoomToScale(denominator.value)) else None
  }

  /** The bbox expression is configured and evaluates without error. */
  predicate BboxEvaluates(bboxExpr: Option<string>, bboxOutcome: Outcome) {
    bboxExpr.Some? && bboxExpr.value != "" && bboxOutcome.Evaluated?
  }

  /**
   * A usable bounding box wins: when the bbox expression evaluates to a text
   * that parses, the target is that rectangle, and the scale expression is
   * not consulted at all (any scale inputs give the same target).
   */
  lemma BboxTakesPriority(bboxExpr: Option<string>, bboxOutcome: Outcome,
                          scaleExpr1: Option<string>, scaleOutcome1: Outcome,
                          scaleExpr2: Option<string>, scaleOutcome2: Outcome,
                          parseFloat: string -> Option<real>)
    requires BboxEvaluates(bboxExpr, bboxOutcome) && bboxOutcome.value.Text?
    requires BboxStrToRectangle(Some(bboxOutcome.value.text), parseFloat).Some?
    ensures ChooseTarget(bboxExpr, bboxOutcome, scaleExpr1, scaleOutcome1, parseFloat)
         == Some(ZoomToRect(BboxStrToRectangle(Some(bboxOutcome.value.text), parseFloat).value))
    ensures ChooseTarget(bboxExpr, bboxOutcome, scaleExpr1, scaleOutcome1, parseFloat)
         == ChooseTarget(bboxExpr, bboxOutcome, scaleExpr2, scaleOutcome2, parseFloat)
  {
  }

  /** A bbox expression that evaluates to a number or to NULL makes the handler raise, whatever the scale. */
  lemma NonTextBboxRaises(bboxExpr: Option<string>, bboxOutcome: Outcome,
                          scaleExpr: Option<string>, scaleOutcome: Outcome,
                          parseFloat: string -> Option<real>)
    requires BboxEvaluates(bboxExpr, bboxOutcome) && !bboxOutcome.value.Text?
    ensures ChooseTarget(bboxExpr, bboxOutcome, scaleExpr, scaleOutcome, parseFloat) == None
  {
  }

  /**
   * Without a usable bounding box (no bbox expression, an evaluation error,
   * or a text that does not parse) the scale decides: 1:2000 when the scale
   * expression is unset or fails, its value when that is a number, and no
   * zoom at all (the handler raises) when it evaluates to NULL or to a text.
   */
  lemma ScaleFallback(bboxExpr: Option<string>, bboxOutcome: Outcome,
                      scaleExpr: Option<string>, scaleOutcome: Outcome,
                      parseFloat: string -> Option<real>)
    requires BboxEvaluates(bboxExpr, bboxOutcome) ==>
               bboxOutcome.value.Text? && BboxStrToRectangle(Some(bboxOutcome.value.text), parseFloat).None?
    ensures var t := ChooseTarget(bboxExpr, bboxOutcome, scaleExpr, scaleOutcome, parseFloat);
            && (scaleExpr.None? || scaleExpr.value == "" || scaleOutcome.EvalError? ==> t == Some(ZoomToScale(2000.0)))
            && (scaleExpr.Some? && scaleExpr.value != "" && scaleOutcome.Evaluated? ==>
                  match scaleOutcome.value
                  case Integer(n) => t == Some(ZoomToScale(n as real))
                  case Float(x) => t == Some(ZoomToScale(x))
                  case _ => t == None)
  {
  }

  /** With no expression configured the target is 1:2000, whatever the outcomes. */
  lemma NoExpressionsDefaultScale(bboxOutcome: Outcome, scaleOutcome: Outcome,
                                  parseFloat: string -> Option<real>)
    ensures ChooseTarget(None, bboxOutcome, None, scaleOutcome, parseFloat) == Some(ZoomToScale(2000.0))
  {
  }

  // ---------------------------------------------------------------------------
  // The PostGIS Search extent (PostGIS_Search/postgissearch.py:253-258)
  // ---------------------------------------------------------------------------

  const SquareHalfSide: real := 250.0

  /** The square from the centroid minus 250 to the centroid plus 250, in x and in y. */
  function SquareAround(centroid: Point): (r: Rect)
    ensures r.xMax - r.xMin == 500.0 && r.yMax - r.yMin == 500.0
    ensures (r.xMin + r.xMax) / 2.0 == centroid.x && (r.yMin + r.yMax) / 2.0 == centroid.y
  {
    Rect(centroid.x - SquareHalfSide, centroid.y - SquareHalfSide,
         centroid.x + SquareHalfSide, centroid.y + SquareHalfSide)
  }
}
