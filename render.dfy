/** The draw pass of the chart as a pure function from the view's state to
    the list of canvas calls it makes, in order: the missing-hours ring, the
    worked-hours arc, then the legend (a text and a dot for each count). */
module Render {
  import opened KotlinInt
  import opened Hours
  import opened Angle
  import opened Geometry

  /** The part of an Android `Paint` the chart sets: colour and stroke width in pixels. */
  datatype Paint = Paint(color: Int32, strokeWidth: real)

  /** What `Paint.getTextBounds` reports for a text: its width in whole pixels
      and the vertical centre of its bounds relative to the baseline. */
  datatype TextBounds = TextBounds(width: nat, exactCenterY: real)

  /** One canvas call. Text is drawn centre-aligned at `x`; `y` is its baseline. */
  datatype DrawCommand =
    | DrawArc(oval: RectF, startAngle: real, sweepAngle: Float, paint: Paint)
    | DrawText(text: string, x: real, y: real, textSize: real, color: Int32)
    | DrawCircle(cx: real, cy: real, radius: real, color: Int32)

  /** The legend text colour, `Color.DKGRAY`. */
  const LEGEND_TEXT_COLOR: Int32 := FromUnsigned(0xff444444)

  /** Everything of the view that `onDraw` reads. */
  datatype Scene = Scene(
    chartRect: RectF,
    hours: Hours,
    textLegendSize: real,
    circleLegendSize: real,
    workedPaint: Paint,
    missingPaint: Paint,
    workedColor: Int32,
    missingColor: Int32,
    density: real)

  /** The legend text of the worked hours, `"+${workedHours}h"`. */
  function WorkedLabel(worked: Int32): (r: string)
    ensures 3 <= |r| && r[0] == '+' && r[|r| - 1] == 'h' && r[1..|r| - 1] == IntToString(worked)
  {
    "+" + IntToString(worked) + "h"
  }

  /** The legend text of the missing hours, `"-${missingHours}h"`. */
  function MissingLabel(missing: Int32): (r: string)
    ensures 3 <= |r| && r[0] == '-' && r[|r| - 1] == 'h' && r[1..|r| - 1] == IntToString(missing)
  {
    "-" + IntToString(missing) + "h"
  }

  /** Both labels carry their count: the text between the sign and the `h`
      reads back as the number shown. */
  lemma LabelsRoundTrip(worked: Int32, missing: Int32)
    ensures var w := WorkedLabel(worked);
      w[0] == '+' && w[|w| - 1] == 'h' && IsIntLiteral(w[1..|w| - 1]) && ParseInt(w[1..|w| - 1]) == worked
    ensures var m := MissingLabel(missing);
      m[0] == '-' && m[|m| - 1] == 'h' && IsIntLiteral(m[1..|m| - 1]) && ParseInt(m[1..|m| - 1]) == missing
  {
  }

  /** `drawMissingHours`: the background ring, a full turn from 0 degrees. */
  function MissingArcPass(s: Scene): (r: seq<DrawCommand>)
    ensures |r| == 1 && r[0].DrawArc? && r[0].oval == s.chartRect
    ensures r[0].startAngle == 0.0 && r[0].sweepAngle == Finite(360.0) && r[0].paint == s.missingPaint
  {
    [DrawArc(s.chartRect, 0.0, Finite(360.0), s.missingPaint)]
  }

  /** `drawWorkedHours`: the worked arc, skipped when its sweep compares equal to zero. */
  function WorkedArcPass(s: Scene): (r: seq<DrawCommand>)
    ensures |r| <= 1
    ensures |r| == 1 <==> s.hours.worked != 0 || s.hours.total == 0
    ensures |r| == 1 ==> r[0] == DrawArc(s.chartRect, 0.0, HoursToAngle(s.hours.worked, s.hours.total), s.workedPaint)
  {
    var sweep := HoursToAngle(s.hours.worked, s.hours.total);
    if sweep == Finite(0.0) then [] else [DrawArc(s.chartRect, 0.0, sweep, s.workedPaint)]
  }

  /** One legend entry: the text centred on `centerX` at `baseline`, then a dot
      of radius `dotPx` whose right edge is `marginPx` left of the text's
      half-width, vertically centred on the text's bounds. */
  function LegendEntry(text: string, centerX: real, baseline: real, textPx: real,
                       dotPx: real, marginPx: real, bounds: TextBounds, color: Int32): (r: seq<DrawCommand>)
    ensures |r| == 2 && r[0] == DrawText(text, centerX, baseline, textPx, LEGEND_TEXT_COLOR)
    ensures r[1].DrawCircle? && r[1].radius == dotPx && r[1].color == color
    ensures r[1].cx + r[1].radius == centerX - (bounds.width / 2) as real - marginPx
    ensures r[1].cy == baseline + bounds.exactCenterY
  {
    [DrawText(text, centerX, baseline, textPx, LEGEND_TEXT_COLOR),
     DrawCircle(centerX - ((bounds.width / 2) as real + dotPx + marginPx),
                baseline + bounds.exactCenterY, dotPx, color)]
  }

  /** `drawLegend`: the worked text half a text size above the centre, the
      missing text a text size below it, each followed by its dot. */
  function LegendPass(s: Scene, measure: string -> TextBounds): (r: seq<DrawCommand>)
    ensures |r| == 4
    ensures r[0].DrawText? && r[0].text == WorkedLabel(s.hours.worked)
    ensures r[1].DrawCircle? && r[1].color == s.workedColor
    ensures r[2].DrawText? && r[2].text == MissingLabel(Missing(s.hours))
    ensures r[3].DrawCircle? && r[3].color == s.missingColor
  {
    var centerX := s.chartRect.CenterX();
    var centerY := s.chartRect.CenterY();
    var textPx := TextSizePx(s.textLegendSize, s.density);
    var workedY := centerY - textPx / 2.0;
    var missingY := centerY + textPx;
    var marginPx := ToPx(LEGEND_DOT_MARGIN, s.density);
    var dotPx := ToPx(s.circleLegendSize, s.density);
    var workedText := WorkedLabel(s.hours.worked);
    var missingText := MissingLabel(Missing(s.hours));
    LegendEntry(workedText, centerX, workedY, textPx, dotPx, marginPx, measure(workedText), s.workedColor)
    + LegendEntry(missingText, centerX, missingY, textPx, dotPx, marginPx, measure(missingText), s.missingColor)
  }

  /** `onDraw`: the three passes in order. */
  function Draw(s: Scene, measure: string -> TextBounds): (r: seq<DrawCommand>)
    ensures 5 <= |r| <= 6
    ensures r[0] == DrawArc(s.chartRect, 0.0, Finite(360.0), s.missingPaint)
    ensures r[1..|r| - 4] == WorkedArcPass(s) && r[|r| - 4..] == LegendPass(s, measure)
  {
    MissingArcPass(s) + WorkedArcPass(s) + LegendPass(s, measure)
  }

  /** Whether the worked arc is drawn. */
  predicate DrawsWorkedArc(s: Scene)
  {
    HoursToAngle(s.hours.worked, s.hours.total) != Finite(0.0)
  }

  /** The shape of a frame: the full missing ring first; the worked arc next,
      exactly when its sweep is non-zero, which is exactly when some hours are
      worked or the total is zero; then the two labels and their dots. */
  lemma DrawShape(s: Scene, measure: string -> TextBounds)
    ensures var cmds := Draw(s, measure);
      var k := if DrawsWorkedArc(s) then 1 else 0;
      && |cmds| == 5 + k
      && cmds[0] == DrawArc(s.chartRect, 0.0, Finite(360.0), s.missingPaint)
      && (DrawsWorkedArc(s) <==> s.hours.worked != 0 || s.hours.total == 0)
      && (DrawsWorkedArc(s) ==>
            cmds[1] == DrawArc(s.chartRect, 0.0, HoursToAngle(s.hours.worked, s.hours.total), s.workedPaint))
      && cmds[1 + k].DrawText? && cmds[1 + k].text == WorkedLabel(s.hours.worked)
      && cmds[2 + k].DrawCircle? && cmds[2 + k].color == s.workedColor
      && cmds[3 + k].DrawText? && cmds[3 + k].text == MissingLabel(Missing(s.hours))
      && cmds[4 + k].DrawCircle? && cmds[4 + k].color == s.missingColor
  {
  }

  /** In a consistent state with a positive total, the worked arc, when drawn,
      sweeps at most a full turn. */
  lemma WorkedSweepWithinTurn(s: Scene, measure: string -> TextBounds)
    requires Consistent(s.hours) && 0 < s.hours.total && 0 <= s.hours.worked
    requires DrawsWorkedArc(s)
    ensures Draw(s, measure)[1].DrawArc?
    ensures Draw(s, measure)[1].sweepAngle.Finite?
    ensures 0.0 < Draw(s, measure)[1].sweepAngle.value <= 360.0
  {
  }

  /** The legend baselines: the worked text sits half a text size above the
      chart centre, the missing text a full text size below it, so the two
      baselines are one and a half text sizes apart. */
  lemma LegendBaselines(s: Scene, measure: string -> TextBounds)
    ensures var cmds := LegendPass(s, measure);
      var textPx := TextSizePx(s.textLegendSize, s.density);
      && |cmds| == 4
      && cmds[0].DrawText? && cmds[2].DrawText?
      && cmds[0].x == cmds[2].x == s.chartRect.CenterX()
      && cmds[0].y == s.chartRect.CenterY() - textPx / 2.0
      && cmds[2].y == s.chartRect.CenterY() + textPx
      && cmds[2].y - cmds[0].y == 1.5 * textPx
      && cmds[0].textSize == cmds[2].textSize == textPx
  {
  }

  /** A legend dot stays clear of its centred text, whatever the number of
      digits, once the margin exceeds the half pixel that `width div 2` can
      lose: its right edge lies left of the text's left edge. */
  lemma DotLeftOfLabel(text: string, centerX: real, baseline: real, textPx: real,
                       dotPx: real, marginPx: real, bounds: TextBounds, color: Int32)
    requires marginPx > 0.5
    ensures var e := LegendEntry(text, centerX, baseline, textPx, dotPx, marginPx, bounds, color);
      e[1].cx + e[1].radius < centerX - bounds.width as real / 2.0
  {
    var half := bounds.width / 2;
    assert bounds.width as real / 2.0 <= half as real + 0.5;
  }

  /** In a whole frame, at a density above 1/8 (so that the 4 dp margin is
      more than half a pixel), both legend dots lie left of their labels. */
  lemma LegendDotsClearOfLabels(s: Scene, measure: string -> TextBounds)
    requires s.density > 0.125
    ensures var cmds := LegendPass(s, measure);
      var centerX := s.chartRect.CenterX();
      && cmds[1].cx + cmds[1].radius < centerX - measure(cmds[0].text).width as real / 2.0
      && cmds[3].cx + cmds[3].radius < centerX - measure(cmds[2].text).width as real / 2.0
  {
    var centerX := s.chartRect.CenterX();
    var centerY := s.chartRect.CenterY();
    var textPx := TextSizePx(s.textLegendSize, s.density);
    var marginPx := ToPx(LEGEND_DOT_MARGIN, s.density);
    var dotPx := ToPx(s.circleLegendSize, s.density);
    var workedText := WorkedLabel(s.hours.worked);
    var missingText := MissingLabel(Missing(s.hours));
    DotLeftOfLabel(workedText, centerX, centerY - textPx / 2.0, textPx, dotPx, marginPx,
                   measure(workedText), s.workedColor);
    DotLeftOfLabel(missingText, centerX, centerY + textPx, textPx, dotPx, marginPx,
                   measure(missingText), s.missingColor);
  }

  /** A chart with 20 of 160 hours worked sweeps an eighth of a turn and is
      labelled "+20h" and "-140h"; a full chart of 199 hours reads "+199h" and "-0h". */
  lemma ExampleFrames()
    ensures HoursToAngle(20, 160) == Finite(45.0)
    ensures WorkedLabel(20) == "+20h" && MissingLabel(Missing(Hours(160, 20))) == "-140h"
    ensures HoursToAngle(199, 199) == Finite(360.0)
    ensures WorkedLabel(199) == "+199h" && MissingLabel(Missing(Hours(199, 199))) == "-0h"
  {
  }
}
