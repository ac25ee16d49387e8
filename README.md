# HourChartView in Dafny

A Dafny model of `HourChartView`, the Android widget of the hour-chart library.
The widget draws a ring of "missing" hours with an arc of "worked" hours over
it. At the centre it writes a legend of two labels, `+{worked}h` and
`-{missing}h`, each with a coloured dot to its left.

The model follows the widget's parts:

- `KotlinInt` covers Kotlin's 32-bit `Int`: its range, its wrap-around, and
  the decimal text a string template gives it. A parser is proved to read that
  text back.
- `Hours` is the data as a pure state machine: total and worked hours, the
  derived missing hours, and the two validating setters. It also defines
  `Run`, which applies any sequence of setter calls.
- `Angle` is `convertHoursToAngle`, the hours-to-degrees mapping. Float
  arithmetic is modelled over the reals. The one exception is division by a
  zero total, which gives NaN or an infinity as IEEE 754 does.
- `Geometry` holds density scaling (`toPx`), the chart rectangle that
  `onSizeChanged` computes, and the floor-clamped legend text size.
- `Render` is the draw pass as a pure function. It returns the list of canvas
  calls: the missing ring, the worked arc, then each label followed by its dot.
- `Snapshot` is the `ViewState` record that is saved and restored around a
  destroy/recreate cycle. It wraps the parent view's saved state.
- `HourChart` holds the class `HourChartView`. Its fields are those of the
  widget, and its methods are the setters, `onSizeChanged`, `onDraw`,
  `onSaveInstanceState` and `onRestoreInstanceState`. `Valid()` is the object
  invariant: both arc paints always carry their colour and the stroke width in
  pixels.

The display density and the text measurements (`Paint.getTextBounds`) are
inputs. `invalidate()` is modelled as a `redrawRequested` flag. Each canvas
call becomes a `DrawCommand`.

Behaviour of the code that the model keeps, although a reader might expect
otherwise:

- Restore assigns both hour counts directly and bypasses the validating
  setters, so a restored state is consistent only when the snapshot was
  (`Snapshot.RestoreKeepsConsistencyOfSnapshot`).
- `setTotalHours(0)` is accepted while no hours are worked, and the angle then
  divides by zero. The model returns NaN there; NaN is not equal to `0f`, so
  the worked arc is still drawn, with a NaN sweep (`Render.DrawShape`).
- The chart rectangle is the padded content box inset by a further `toPx(18)`
  on every side (`Geometry.ChartRect`).
- The legend text size is stored as given and clamped to its minimum only
  when `textSizePx` reads it.
- There is no `setup(worked, total)` operation in this revision of the widget.

## Model

| member | source | states |
|---|---|---|
| `KotlinInt.Wrap` | hourchart/src/main/java/com/gustavobarbosab/hourchart/HourChartView.kt:32-33 | Kotlin `Int` subtraction: the exact value when it is in range, otherwise a value congruent to it modulo 2^32 |
| `KotlinInt.FromUnsigned` | hourchart/src/main/java/com/gustavobarbosab/hourchart/HourChartView.kt:49-56 | `Long.toInt()` of a 32-bit colour literal: unchanged up to `Int.MAX_VALUE`, otherwise 2^32 less |
| `KotlinInt.NatToDecimal` | hourchart/src/main/java/com/gustavobarbosab/hourchart/HourChartView.kt:137 | the decimal text of a count is non-empty, all digits, and has no leading zero |
| `KotlinInt.DecimalRoundTrip` | hourchart/src/main/java/com/gustavobarbosab/hourchart/HourChartView.kt:137 | reading the digits back gives the number |
| `KotlinInt.IntToString` | hourchart/src/main/java/com/gustavobarbosab/hourchart/HourChartView.kt:154 | `Int.toString()` yields an integer literal that parses back to the same value, negative values included |
| `KotlinInt.IntToStringInjective` | hourchart/src/main/java/com/gustavobarbosab/hourchart/HourChartView.kt:137 | distinct counts get distinct texts |
| `Hours.Missing` | hourchart/src/main/java/com/gustavobarbosab/hourchart/HourChartView.kt:32-33 | `missingHours` equals `totalHours - workedHours` exactly when that difference fits in an `Int` |
| `Hours.MissingOfConsistent` | hourchart/src/main/java/com/gustavobarbosab/hourchart/HourChartView.kt:30-33 | if `0 <= workedHours <= totalHours`, the missing hours are the difference, at least 0 and at most the total |
| `Hours.MissingWrapsForNegativeWorked` | hourchart/src/main/java/com/gustavobarbosab/hourchart/HourChartView.kt:183-189 | the setters let negative worked hours through; with `Int.MAX_VALUE` total and -1 worked, the missing hours wrap to `Int.MIN_VALUE` |
| `Hours.SetWorked` | hourchart/src/main/java/com/gustavobarbosab/hourchart/HourChartView.kt:183-189 | throws exactly when `n > totalHours`; otherwise sets `workedHours = n`, keeps the total, and leaves the hours consistent |
| `Hours.SetTotal` | hourchart/src/main/java/com/gustavobarbosab/hourchart/HourChartView.kt:191-197 | throws exactly when `workedHours > t`; otherwise sets `totalHours = t`, keeps the worked hours, and leaves the hours consistent |
| `Hours.RunPreservesConsistent` | hourchart/src/main/java/com/gustavobarbosab/hourchart/HourChartView.kt:183-197 | any sequence of setter calls, failing ones included, keeps `workedHours <= totalHours` |
| `Hours.RunKeepsHoursNonNegative` | hourchart/src/main/java/com/gustavobarbosab/hourchart/HourChartView.kt:183-197 | with non-negative arguments, the worked hours also stay non-negative |
| `Hours.RunFromDefault` | hourchart/src/main/java/com/gustavobarbosab/hourchart/HourChartView.kt:30-33 | from the defaults (200 total, 0 worked), calls with non-negative arguments leave consistent hours and non-negative missing hours equal to the difference |
| `Angle.HoursToAngle` | hourchart/src/main/java/com/gustavobarbosab/hourchart/HourChartView.kt:166 | finite exactly when the total is non-zero; exactly 0 when the hours are 0 and the total is not; within [0, 360] when `0 <= hours <= total` and the total is positive; 360 when the hours equal the total |
| `Angle.HoursToAngleMonotone` | hourchart/src/main/java/com/gustavobarbosab/hourchart/HourChartView.kt:166 | for a positive total, more hours never give a smaller sweep |
| `Geometry.ToPx` | hourchart/src/main/java/com/gustavobarbosab/hourchart/HourChartView.kt:210 | `toPx` multiplies by the density: dividing by a non-zero density gives the dp length back, and with a positive density the pixel length is positive exactly when the dp length is (order: `Geometry.ToPxMonotone`) |
| `Geometry.ToPxMonotone` | hourchart/src/main/java/com/gustavobarbosab/hourchart/HourChartView.kt:210 | with a positive density, `toPx` preserves the order of lengths in both directions |
| `Geometry.ChartRect` | hourchart/src/main/java/com/gustavobarbosab/hourchart/HourChartView.kt:168-175 | the chart rectangle is the padded content box inset by `toPx(18)` on all four sides, so it is centred in that box and 2·`toPx(18)` smaller in each dimension |
| `Geometry.TextSizePx` | hourchart/src/main/java/com/gustavobarbosab/hourchart/HourChartView.kt:36-37 | `textSizePx` is the larger of `toPx(textLegendSize)` and `toPx(MIN_TEXT_SIZE)`; it equals `toPx(textLegendSize)` exactly when `textLegendSize >= MIN_TEXT_SIZE` |
| `Render.WorkedLabel` | hourchart/src/main/java/com/gustavobarbosab/hourchart/HourChartView.kt:137 | the worked label is `+`, the text of the worked count, then `h` (that the count reads back: `Render.LabelsRoundTrip`) |
| `Render.MissingLabel` | hourchart/src/main/java/com/gustavobarbosab/hourchart/HourChartView.kt:154 | the missing label is `-`, the text of the missing count, then `h` (that the count reads back: `Render.LabelsRoundTrip`) |
| `Render.LabelsRoundTrip` | hourchart/src/main/java/com/gustavobarbosab/hourchart/HourChartView.kt:136-156 | the labels are `+`, then the worked count, then `h`, and `-`, then the missing count, then `h`; the count between sign and `h` parses back to the value shown |
| `Render.MissingArcPass` | hourchart/src/main/java/com/gustavobarbosab/hourchart/HourChartView.kt:120-122 | `drawMissingHours` draws one arc over the chart rectangle from 0° sweeping the full 360° in the missing paint |
| `Render.WorkedArcPass` | hourchart/src/main/java/com/gustavobarbosab/hourchart/HourChartView.kt:114-118 | `drawWorkedHours` draws at most one arc, and draws it exactly when some hours are worked or the total is zero (the sweep then differs from `0f`), from 0° with the computed sweep in the worked paint |
| `Render.LegendEntry` | hourchart/src/main/java/com/gustavobarbosab/hourchart/HourChartView.kt:136-151 | one legend entry: the label centred at the baseline in the legend text colour, then a dot of the given radius and colour whose right edge is exactly the margin left of `centerX - width div 2`, centred on the label's bounds vertically (clearance: `Render.DotLeftOfLabel`) |
| `Render.LegendPass` | hourchart/src/main/java/com/gustavobarbosab/hourchart/HourChartView.kt:124-164 | `drawLegend` makes four calls: the worked label, its dot in the worked colour, the missing label, its dot in the missing colour (placement: `Render.LegendBaselines`, `Render.LegendDotsClearOfLabels`) |
| `Render.Draw` | hourchart/src/main/java/com/gustavobarbosab/hourchart/HourChartView.kt:107-112 | `onDraw` runs the passes in order: the full missing ring first, the worked-arc pass next, the four legend calls last (see `Render.DrawShape`) |
| `Render.DrawShape` | hourchart/src/main/java/com/gustavobarbosab/hourchart/HourChartView.kt:107-164 | a frame draws the full 360° missing ring first; then the worked arc with the computed sweep, exactly when that sweep is non-zero (some hours worked, or a zero total); then each label followed by its dot in its arc's colour |
| `Render.WorkedSweepWithinTurn` | hourchart/src/main/java/com/gustavobarbosab/hourchart/HourChartView.kt:114-118 | in a consistent state with a positive total, a drawn worked arc sweeps more than 0 and at most 360 degrees |
| `Render.LegendBaselines` | hourchart/src/main/java/com/gustavobarbosab/hourchart/HourChartView.kt:124-135 | both labels are centred on the chart's centre x, at `centerY - textSize/2` and `centerY + textSize`, drawn at the clamped text size |
| `Render.DotLeftOfLabel` | hourchart/src/main/java/com/gustavobarbosab/hourchart/HourChartView.kt:144-162 | with a margin above half a pixel, a dot's right edge lies left of its centred label's left edge, for any label width (any number of digits) |
| `Render.LegendDotsClearOfLabels` | hourchart/src/main/java/com/gustavobarbosab/hourchart/HourChartView.kt:124-164 | in a frame drawn at a density above 1/8, both legend dots lie left of their labels' bounds |
| `Render.ExampleFrames` | hourchart/src/main/java/com/gustavobarbosab/hourchart/HourChartView.kt:137-166 | 20 of 160 hours gives a 45° sweep with labels "+20h" and "-140h"; 199 of 199 gives 360° with "+199h" and "-0h" |
| `Snapshot.Capture` | hourchart/src/main/java/com/gustavobarbosab/hourchart/HourChartView.kt:83-91 | saving gives a `ViewState` holding exactly the five persisted fields and the parent's saved state |
| `Snapshot.Restore` | hourchart/src/main/java/com/gustavobarbosab/hourchart/HourChartView.kt:93-105 | a `ViewState` replaces the five fields with its own and forwards the state it wraps; any other state, or none, changes nothing and is forwarded as it is |
| `Snapshot.SaveRestoreRoundTrip` | hourchart/src/main/java/com/gustavobarbosab/hourchart/HourChartView.kt:83-105 | restoring a saved `ViewState` gives back its five fields, whatever the view held before, and forwards exactly the parent state that was saved |
| `Snapshot.ForeignStatePassesThrough` | hourchart/src/main/java/com/gustavobarbosab/hourchart/HourChartView.kt:93-104 | a state that is not a `ViewState`, or no state at all, changes no field and is forwarded as it is |
| `Snapshot.RestoreKeepsConsistencyOfSnapshot` | hourchart/src/main/java/com/gustavobarbosab/hourchart/HourChartView.kt:99-101 | restore bypasses validation, so the restored hours are consistent exactly when the snapshot's were |
| `HourChart.HourChartView.MissingHours` | hourchart/src/main/java/com/gustavobarbosab/hourchart/HourChartView.kt:32-33 | in a consistent state with non-negative worked hours, the missing hours are the non-negative difference |
| `HourChart.HourChartView.TextSizePx` | hourchart/src/main/java/com/gustavobarbosab/hourchart/HourChartView.kt:36-37 | the legend text size in pixels is never below `toPx(MIN_TEXT_SIZE)`, and equals `toPx(textLegendSize)` exactly when `textLegendSize >= MIN_TEXT_SIZE` |
| `HourChart.HourChartView.constructor` | hourchart/src/main/java/com/gustavobarbosab/hourchart/HourChartView.kt:22-81 | starts with the defaults (200 total, 0 worked, default colours, stroke 18, text 12, dot 6, empty rectangle) and paints that match them |
| `HourChart.HourChartView.SetStrokeWidth` | hourchart/src/main/java/com/gustavobarbosab/hourchart/HourChartView.kt:39-47 | stores the width and gives both paints `toPx(width)`; changes nothing else and requests no redraw |
| `HourChart.HourChartView.SetWorkedColorResource` | hourchart/src/main/java/com/gustavobarbosab/hourchart/HourChartView.kt:49-54 | stores the colour, puts it in the worked paint, and requests a redraw |
| `HourChart.HourChartView.SetMissingColorResource` | hourchart/src/main/java/com/gustavobarbosab/hourchart/HourChartView.kt:56-61 | stores the colour, puts it in the missing paint, and requests a redraw |
| `HourChart.HourChartView.SetWorkedHours` | hourchart/src/main/java/com/gustavobarbosab/hourchart/HourChartView.kt:183-189 | throws and changes no field exactly when `n > totalHours`; otherwise sets the worked hours, keeps the total, and requests a redraw; consistency is preserved |
| `HourChart.HourChartView.SetTotalHours` | hourchart/src/main/java/com/gustavobarbosab/hourchart/HourChartView.kt:191-197 | throws and changes no field exactly when `workedHours > t`; otherwise sets the total, keeps the worked hours, and requests a redraw; consistency is preserved |
| `HourChart.HourChartView.OnSizeChanged` | hourchart/src/main/java/com/gustavobarbosab/hourchart/HourChartView.kt:168-181 | sets the chart rectangle from size, padding and `toPx(18)`; sets text size 0.04, dot size 0.01 and stroke width 0.04 of its height; both paints get the new stroke in pixels |
| `HourChart.HourChartView.OnDraw` | hourchart/src/main/java/com/gustavobarbosab/hourchart/HourChartView.kt:107-112 | the frame is the draw pass of the view's current state (see `Render.DrawShape`) |
| `HourChart.HourChartView.OnSaveInstanceState` | hourchart/src/main/java/com/gustavobarbosab/hourchart/HourChartView.kt:83-91 | returns a `ViewState` of the five fields around the parent's state, which restoring turns back into those fields and that parent state |
| `HourChart.HourChartView.OnRestoreInstanceState` | hourchart/src/main/java/com/gustavobarbosab/hourchart/HourChartView.kt:93-105 | for a `ViewState`: sets stroke and colours through their setters, which keeps the paints in step and requests a redraw; sets the hours directly, consistent only when the snapshot was; forwards the wrapped parent state. Any other state changes nothing and is forwarded |

## Left out

- `setWorkedHoursAnimated` (lines 199-208) runs an `ObjectAnimator` with an `AccelerateDecelerateInterpolator` on the framework's frame clock. That code is not part of this model. Every frame value it produces goes through `setWorkedHours`, so a run of frames is a `Hours.Run` of `SetWorkedHours` calls and keeps the invariant (`Hours.RunPreservesConsistent`). Its first value is the literal 1, not the current worked hours.
- Canvas calls, `invalidate()` and `super.onDraw`/`super.onSizeChanged` are framework side effects. They appear as returned `DrawCommand`s and a `redrawRequested` flag.
- Paint fields other than colour and stroke width (style, cap, anti-aliasing) are framework configuration set once in `init`. `textPaint`, `circleLegendPaint` and `textBounds` are scratch objects that `drawLegend` mutates. Their values are carried in each command instead: the text size, the text colour `Color.DKGRAY` and the dot colour. The text paint's centre alignment is implied by each text command's `x` being the label's centre.
- `Paint.getTextBounds` font metrics are foreign code. The measured width and vertical centre are an input function `measure`.
- IEEE float rounding (including `Double.toFloat()` in `onSizeChanged`) and `Int`-to-`Float` precision loss are not modelled: all float arithmetic is over `real`. The display density is a positive constant of each view.
- `Parcelable`/`@Parcelize` byte serialization is not modelled. A saved state is a datatype value, and any state that is not the chart's own is an opaque byte sequence.
- `HourChart.HourChartView.OnSizeChanged`: `oldw` and `oldh` are accepted and ignored, as in the source. The padding is a parameter, because the host's layout sets it.
- `Angle.HoursToAngle`: the bound [0, 360] is stated only for a positive total and `0 <= hours <= total`. A negative total with consistent hours gives a sweep that is not bounded by the model. A zero total gives NaN or an infinity, as the source's unguarded division does.
- `MainActivity` is UI wiring (a button listener and random colours) and is not part of this model. It calls `setup(...)` and sets `strokeWidth`, neither of which is public in this revision of the widget.
