/** Density scaling, the chart rectangle computed from the view's size, and
    the clamped legend text size. Lengths in density-independent units (dp)
    become pixels by multiplying by the display density, which the model
    takes as a parameter. */
module Geometry {

  const PADDING_DEFAULT: real := 18.0
  const STROKE_WIDTH_DEFAULT: real := 18.0
  const LEGEND_DOT_SIZE: real := 6.0
  const MIN_TEXT_SIZE: real := 12.0
  /** Gap, in dp, between a legend dot and its label. */
  const LEGEND_DOT_MARGIN: real := 4.0

  /** Share of the chart height given to the legend text, the legend dot and the stroke. */
  const TEXT_SIZE_RATIO: real := 0.04
  const DOT_SIZE_RATIO: real := 0.01
  const STROKE_WIDTH_RATIO: real := 0.04

  /** `toPx`: dp to pixels. */
  function ToPx(dp: real, density: real): (px: real)
    ensures density != 0.0 ==> px / density == dp
    ensures density > 0.0 ==> (px > 0.0 <==> dp > 0.0)
  {
    dp * density
  }

  /** With a positive density, converting to pixels keeps the order of lengths. */
  lemma ToPxMonotone(a: real, b: real, density: real)
    requires density > 0.0
    ensures a <= b <==> ToPx(a, density) <= ToPx(b, density)
  {
  }

  /** `RectF`, with the derived measures the view uses. */
  datatype RectF = RectF(left: real, top: real, right: real, bottom: real)
  {
    function Width(): real { right - left }
    function Height(): real { bottom - top }
    function CenterX(): real { (left + right) / 2.0 }
    function CenterY(): real { (top + bottom) / 2.0 }
  }

  /** `RectF()`: the rectangle before the first size change. */
  const EmptyRect: RectF := RectF(0.0, 0.0, 0.0, 0.0)

  /** The view's padding, in whole pixels, as the layout sets it. */
  datatype Padding = Padding(start: int, top: int, end: int, bottom: int)

  /** The rectangle `onSizeChanged` gives the chart: the view's padded content
      box shrunk by `toPx(PADDING_DEFAULT)` on every side. */
  function ChartRect(w: int, h: int, pad: Padding, density: real): (r: RectF)
    ensures r.left - pad.start as real == r.top - pad.top as real == ToPx(PADDING_DEFAULT, density)
    ensures (w - pad.end) as real - r.right == (h - pad.bottom) as real - r.bottom == ToPx(PADDING_DEFAULT, density)
    ensures r.Width() == (w - pad.start - pad.end) as real - 2.0 * ToPx(PADDING_DEFAULT, density)
    ensures r.Height() == (h - pad.top - pad.bottom) as real - 2.0 * ToPx(PADDING_DEFAULT, density)
    ensures r.CenterX() == (pad.start + w - pad.end) as real / 2.0
    ensures r.CenterY() == (pad.top + h - pad.bottom) as real / 2.0
  {
    var paddingPx := ToPx(PADDING_DEFAULT, density);
    RectF(pad.start as real + paddingPx, pad.top as real + paddingPx,
          w as real - (pad.end as real + paddingPx), h as real - (pad.bottom as real + paddingPx))
  }

  function Max(a: real, b: real): real { if a >= b then a else b }

  /** `textSizePx`: the legend text size in pixels, raised to the minimum when smaller. */
  function TextSizePx(textLegendSize: real, density: real): (px: real)
    ensures density > 0.0 ==> px == Max(ToPx(textLegendSize, density), ToPx(MIN_TEXT_SIZE, density))
    ensures density > 0.0 ==> (px == ToPx(textLegendSize, density) <==> textLegendSize >= MIN_TEXT_SIZE)
  {
    assert density > 0.0 ==> (textLegendSize >= MIN_TEXT_SIZE <==> ToPx(MIN_TEXT_SIZE, density) <= ToPx(textLegendSize, density)) by {
      if density > 0.0 {
        ToPxMonotone(MIN_TEXT_SIZE, textLegendSize, density);
      }
    }
    if textLegendSize >= MIN_TEXT_SIZE then ToPx(textLegendSize, density) else ToPx(MIN_TEXT_SIZE, density)
  }
}
