/** The `HourChartView` widget: its fields and the operations that change them.
    Canvas output, `invalidate()` and the parent `View` are modelled as the
    returned list of draw commands, a redraw flag, and opaque parameters. */
module HourChart {
  import opened KotlinInt
  import opened Hours
  import opened Angle
  import opened Geometry
  import opened Render
  import opened Snapshot

  /** Default arc colours, `0xff54c47f.toInt()` and `0xFFEB9191.toInt()`. */
  const WORKED_COLOR_DEFAULT: Int32 := FromUnsigned(0xff54c47f)
  const MISSING_COLOR_DEFAULT: Int32 := FromUnsigned(0xffeb9191)

  /** How a call ends: normally, or with an `IllegalArgumentException`. */
  datatype Status = Returned | ThrewIllegalArgument

  class HourChartView {
    /** Display density: pixels per dp. */
    const density: real

    var chartRect: RectF
    var workedPaint: Paint
    var missingPaint: Paint
    var totalHours: Int32
    var workedHours: Int32
    var textLegendSize: real
    var circleLegendSize: real
    var strokeWidth: real
    var workedColorResource: Int32
    var missingColorResource: Int32
    /** Set by every call of `invalidate()`; the host clears it when it redraws. */
    var redrawRequested: bool

    /** The object invariant: both arc paints carry their colour and the
        stroke width in pixels. */
    ghost predicate Valid()
      reads this
    {
      && density > 0.0
      && workedPaint == Paint(workedColorResource, ToPx(strokeWidth, density))
      && missingPaint == Paint(missingColorResource, ToPx(strokeWidth, density))
    }

    function HoursState(): Hours
      reads this
    {
      Hours(totalHours, workedHours)
    }

    /** `missingHours`. */
    function MissingHours(): (m: Int32)
      reads this
      ensures Consistent(HoursState()) && 0 <= workedHours ==> m == totalHours - workedHours && 0 <= m
    {
      assert Consistent(HoursState()) && 0 <= workedHours ==> Missing(HoursState()) == totalHours - workedHours by {
        if Consistent(HoursState()) && 0 <= workedHours {
          MissingOfConsistent(HoursState());
        }
      }
      Missing(HoursState())
    }

    /** `textSizePx`: never below the minimum text size in pixels. */
    function TextSizePx(): (px: real)
      reads this
      requires Valid()
      ensures px >= ToPx(MIN_TEXT_SIZE, density)
      ensures px == ToPx(textLegendSize, density) <==> textLegendSize >= MIN_TEXT_SIZE
    {
      Geometry.TextSizePx(textLegendSize, density)
    }

    function PersistedFields(): Persisted
      reads this
    {
      Persisted(strokeWidth, workedColorResource, missingColorResource, totalHours, workedHours)
    }

    function CurrentScene(): Scene
      reads this
    {
      Scene(chartRect, HoursState(), textLegendSize, circleLegendSize, workedPaint, missingPaint,
            workedColorResource, missingColorResource, density)
    }

    constructor (density: real)
      requires density > 0.0
      ensures Valid() && this.density == density
      ensures HoursState() == Default && Consistent(HoursState())
      ensures chartRect == EmptyRect
      ensures textLegendSize == MIN_TEXT_SIZE && circleLegendSize == LEGEND_DOT_SIZE
      ensures strokeWidth == STROKE_WIDTH_DEFAULT
      ensures workedColorResource == WORKED_COLOR_DEFAULT && missingColorResource == MISSING_COLOR_DEFAULT
      ensures !redrawRequested
    {
      this.density := density;
      chartRect := EmptyRect;
      totalHours, workedHours := TOTAL_HOURS_DEFAULT, 0;
      textLegendSize, circleLegendSize := MIN_TEXT_SIZE, LEGEND_DOT_SIZE;
      strokeWidth := STROKE_WIDTH_DEFAULT;
      workedColorResource, missingColorResource := WORKED_COLOR_DEFAULT, MISSING_COLOR_DEFAULT;
      workedPaint := Paint(WORKED_COLOR_DEFAULT, ToPx(STROKE_WIDTH_DEFAULT, density));
      missingPaint := Paint(MISSING_COLOR_DEFAULT, ToPx(STROKE_WIDTH_DEFAULT, density));
      redrawRequested := false;
    }

    /** The `strokeWidth` setter: stores the width and pushes it, in pixels,
        into both arc paints. It does not request a redraw. */
    method SetStrokeWidth(value: real)
      requires Valid()
      modifies this
      ensures Valid()
      ensures strokeWidth == value
      ensures workedPaint.strokeWidth == missingPaint.strokeWidth == ToPx(value, density)
      ensures workedPaint.color == old(workedPaint.color) && missingPaint.color == old(missingPaint.color)
      ensures HoursState() == old(HoursState()) && chartRect == old(chartRect)
      ensures textLegendSize == old(textLegendSize) && circleLegendSize == old(circleLegendSize)
      ensures workedColorResource == old(workedColorResource)
      ensures missingColorResource == old(missingColorResource)
      ensures redrawRequested == old(redrawRequested)
    {
      strokeWidth := value;
      workedPaint := workedPaint.(strokeWidth := ToPx(value, density));
      missingPaint := missingPaint.(strokeWidth := ToPx(value, density));
    }

    /** The `workedColorResource` setter: stores the colour, gives it to the
        worked paint and requests a redraw. */
    method SetWorkedColorResource(value: Int32)
      requires Valid()
      modifies this
      ensures Valid()
      ensures workedColorResource == value && workedPaint.color == value
      ensures workedPaint.strokeWidth == old(workedPaint.strokeWidth) && missingPaint == old(missingPaint)
      ensures missingColorResource == old(missingColorResource) && strokeWidth == old(strokeWidth)
      ensures HoursState() == old(HoursState()) && chartRect == old(chartRect)
      ensures textLegendSize == old(textLegendSize) && circleLegendSize == old(circleLegendSize)
      ensures redrawRequested
    {
      workedColorResource := value;
      workedPaint := workedPaint.(color := value);
      redrawRequested := true;
    }

    /** The `missingColorResource` setter: stores the colour, gives it to the
        missing paint and requests a redraw. */
    method SetMissingColorResource(value: Int32)
      requires Valid()
      modifies this
      ensures Valid()
      ensures missingColorResource == value && missingPaint.color == value
      ensures missingPaint.strokeWidth == old(missingPaint.strokeWidth) && workedPaint == old(workedPaint)
      ensures workedColorResource == old(workedColorResource) && strokeWidth == old(strokeWidth)
      ensures HoursState() == old(HoursState()) && chartRect == old(chartRect)
      ensures textLegendSize == old(textLegendSize) && circleLegendSize == old(circleLegendSize)
      ensures redrawRequested
    {
      missingColorResource := value;
      missingPaint := missingPaint.(color := value);
      redrawRequested := true;
    }

    /** `setWorkedHours`: throws, changing nothing, when `n` exceeds the total;
        otherwise stores `n`, keeps the total and requests a redraw. Either way
        the hours are consistent afterwards if they were before. */
    method SetWorkedHours(n: Int32) returns (status: Status)
      requires Valid()
      modifies this
      ensures Valid()
      ensures status == ThrewIllegalArgument <==> SetWorked(old(HoursState()), n).IllegalArgument?
      ensures status == ThrewIllegalArgument ==> unchanged(this)
      ensures status == Returned ==>
        && HoursState() == SetWorked(old(HoursState()), n).hours
        && workedHours == n && totalHours == old(totalHours)
        && redrawRequested
      ensures HoursState() == Step(old(HoursState()), Call.SetWorkedHours(n))
      ensures Consistent(old(HoursState())) ==> Consistent(HoursState())
      ensures chartRect == old(chartRect) && strokeWidth == old(strokeWidth)
      ensures workedPaint == old(workedPaint) && missingPaint == old(missingPaint)
      ensures workedColorResource == old(workedColorResource)
      ensures missingColorResource == old(missingColorResource)
      ensures textLegendSize == old(textLegendSize) && circleLegendSize == old(circleLegendSize)
    {
      if n > totalHours {
        return ThrewIllegalArgument;
      }
      workedHours := n;
      redrawRequested := true;
      return Returned;
    }

    /** `setTotalHours`: throws, changing nothing, when the worked hours exceed
        `t`; otherwise stores `t`, keeps the worked hours and requests a
        redraw. A total of zero is accepted while no hours are worked. */
    method SetTotalHours(t: Int32) returns (status: Status)
      requires Valid()
      modifies this
      ensures Valid()
      ensures status == ThrewIllegalArgument <==> SetTotal(old(HoursState()), t).IllegalArgument?
      ensures status == ThrewIllegalArgument ==> unchanged(this)
      ensures status == Returned ==>
        && HoursState() == SetTotal(old(HoursState()), t).hours
        && totalHours == t && workedHours == old(workedHours)
        && redrawRequested
      ensures HoursState() == Step(old(HoursState()), Call.SetTotalHours(t))
      ensures Consistent(old(HoursState())) ==> Consistent(HoursState())
      ensures chartRect == old(chartRect) && strokeWidth == old(strokeWidth)
      ensures workedPaint == old(workedPaint) && missingPaint == old(missingPaint)
      ensures workedColorResource == old(workedColorResource)
      ensures missingColorResource == old(missingColorResource)
      ensures textLegendSize == old(textLegendSize) && circleLegendSize == old(circleLegendSize)
    {
      if workedHours > t {
        return ThrewIllegalArgument;
      }
      totalHours := t;
      redrawRequested := true;
      return Returned;
    }

    /** `onSizeChanged`: places the chart rectangle inside the padded view and
        sizes the legend text, the legend dots and the stroke in proportion to
        the rectangle's height; the stroke goes through its setter, so both
        paints follow. */
    method OnSizeChanged(w: int, h: int, oldw: int, oldh: int, padding: Padding)
      requires Valid()
      modifies this
      ensures Valid()
      ensures chartRect == ChartRect(w, h, padding, density)
      ensures textLegendSize == TEXT_SIZE_RATIO * chartRect.Height()
      ensures circleLegendSize == DOT_SIZE_RATIO * chartRect.Height()
      ensures strokeWidth == STROKE_WIDTH_RATIO * chartRect.Height()
      ensures workedPaint.strokeWidth == missingPaint.strokeWidth == ToPx(strokeWidth, density)
      ensures HoursState() == old(HoursState())
      ensures workedColorResource == old(workedColorResource)
      ensures missingColorResource == old(missingColorResource)
      ensures redrawRequested == old(redrawRequested)
    {
      chartRect := ChartRect(w, h, padding, density);
      textLegendSize := TEXT_SIZE_RATIO * chartRect.Height();
      circleLegendSize := DOT_SIZE_RATIO * chartRect.Height();
      SetStrokeWidth(STROKE_WIDTH_RATIO * chartRect.Height());
    }

    /** `onDraw`: the frame's draw commands, given how the canvas measures text. */
    method OnDraw(measure: string -> TextBounds) returns (cmds: seq<DrawCommand>)
      ensures cmds == Draw(CurrentScene(), measure)
    {
      cmds := MissingArcPass(CurrentScene());
      cmds := cmds + WorkedArcPass(CurrentScene());
      cmds := cmds + LegendPass(CurrentScene(), measure);
    }

    /** `onSaveInstanceState`: a `ViewState` of the five persisted fields
        wrapping the parent view's saved state. */
    method OnSaveInstanceState(superState: Option<SavedState>) returns (state: SavedState)
      ensures state == Capture(PersistedFields(), superState)
      ensures Restore(PersistedFields(), Some(state)) == (PersistedFields(), superState)
    {
      state := ViewState(strokeWidth, workedColorResource, missingColorResource,
                         totalHours, workedHours, superState);
      SaveRestoreRoundTrip(PersistedFields(), PersistedFields(), superState);
    }

    /** `onRestoreInstanceState`: for the chart's own `ViewState`, sets the
        stroke width and colours through their setters and the hours directly,
        then hands the wrapped parent state on; any other state is handed on
        as it is. Returns what the parent's restore receives. */
    method OnRestoreInstanceState(state: Option<SavedState>) returns (forwarded: Option<SavedState>)
      requires Valid()
      modifies this
      ensures Valid()
      ensures PersistedFields() == Restore(old(PersistedFields()), state).0
      ensures forwarded == Restore(old(PersistedFields()), state).1
      ensures chartRect == old(chartRect)
      ensures textLegendSize == old(textLegendSize) && circleLegendSize == old(circleLegendSize)
      ensures state.Some? && state.value.ViewState? ==>
        (Consistent(HoursState()) <==> state.value.workedHours <= state.value.totalHours)
      ensures state.None? || !state.value.ViewState? ==> unchanged(this)
      ensures redrawRequested == (old(redrawRequested) || (state.Some? && state.value.ViewState?))
    {
      forwarded := state;
      if state.Some? && state.value.ViewState? {
        var s := state.value;
        SetStrokeWidth(s.strokeWidth);
        SetWorkedColorResource(s.workedColorResource);
        SetMissingColorResource(s.missingColorResource);
        totalHours := s.totalHours;
        workedHours := s.workedHours;
        forwarded := s.superState;
      }
    }
  }
}
