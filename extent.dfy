/** The maximum scroll extent of the prompt text (`calculateMaxScroll`).
    The text widget's layout is an opaque input: when a layout exists it is
    given by the bottom edge of each laid-out line, in px. */
module Extent {
  import opened Common

  /** The laid-out text: `lineBottoms[i]` is `layout.getLineBottom(i)`. */
  datatype TextLayout = TextLayout(lineBottoms: seq<int>)

  /** What `calculateMaxScroll` reads from the prompt view: its layout
      (absent before the first layout pass), the widget's own line count and
      line height for the fallback, the view height, and the text size in px. */
  datatype Metrics = Metrics(
    layout: Option<TextLayout>,
    lineCount: int,
    lineHeight: int,
    viewHeight: int,
    textSizePx: real)

  /** Trailing space below the last line, in multiples of the text size. */
  const EXTRA_PADDING_FACTOR: real := 5.0

  /** The scroll offset at which the last line sits fully in view with the
      trailing padding below it: the least non-negative value not below the
      raw extent of whichever branch applies. */
  function MaxScroll(m: Metrics): (r: real)
    ensures 0.0 <= r
    ensures m.layout.None? ==>
      var raw := (m.lineCount * m.lineHeight - m.viewHeight) as real;
      raw <= r && (r == 0.0 || r == raw)
    ensures m.layout.Some? && |m.layout.value.lineBottoms| == 0 ==> r == 0.0
    ensures m.layout.Some? && |m.layout.value.lineBottoms| > 0 ==>
      var bottoms := m.layout.value.lineBottoms;
      var raw := (bottoms[|bottoms| - 1] - m.viewHeight) as real + EXTRA_PADDING_FACTOR * m.textSizePx;
      raw <= r && (r == 0.0 || r == raw)
  {
    match m.layout
    case None =>
      MaxReal(0.0, (m.lineCount * m.lineHeight - m.viewHeight) as real)
    case Some(layout) =>
      var lastLineIndex := |layout.lineBottoms| - 1;
      if lastLineIndex < 0 then 0.0
      else
        var lastLineBottom := layout.lineBottoms[lastLineIndex];
        var extraPadding := m.textSizePx * EXTRA_PADDING_FACTOR;
        MaxReal(0.0, (lastLineBottom - m.viewHeight) as real + extraPadding)
  }

  /** Text whose last line, plus the trailing padding, fits in the view does
      not scroll at all. */
  lemma ContentThatFitsDoesNotScroll(m: Metrics)
    requires m.layout.Some? && |m.layout.value.lineBottoms| > 0
    requires var bottoms := m.layout.value.lineBottoms;
      bottoms[|bottoms| - 1] as real + EXTRA_PADDING_FACTOR * m.textSizePx <= m.viewHeight as real
    ensures MaxScroll(m) == 0.0
  {
  }

  /** A larger font never shortens the scroll extent of a laid-out text. */
  lemma MaxScrollGrowsWithTextSize(m: Metrics, largerPx: real)
    requires m.textSizePx <= largerPx
    ensures MaxScroll(m) <= MaxScroll(m.(textSizePx := largerPx))
  {
  }

  /** A taller view never lengthens the scroll extent. */
  lemma MaxScrollShrinksWithViewHeight(m: Metrics, tallerView: int)
    requires m.viewHeight <= tallerView
    ensures MaxScroll(m.(viewHeight := tallerView)) <= MaxScroll(m)
  {
  }
}
