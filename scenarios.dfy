/** Worked situations that combine the extent computation with the loop. */
module Scenarios {
  import opened Common
  import opened Extent
  import opened ScrollEngine

  /** A short prompt (say two lines) in a view taller than the text plus its
      trailing padding has no scroll extent: pressing play leads to a single
      tick that leaves the text where it is and pauses. */
  lemma ShortPromptPausesAtOnce(m: Metrics)
    requires m.layout.Some? && |m.layout.value.lineBottoms| > 0
    requires var bottoms := m.layout.value.lineBottoms;
      bottoms[|bottoms| - 1] as real + EXTRA_PADDING_FACTOR * m.textSizePx <= m.viewHeight as real
    ensures MaxScroll(m) == 0.0
    ensures AdvanceTicks(0.0, MaxScroll(m)) == 0
    ensures Tick(Scroll(0.0, true, true), MaxScroll(m)) == Scroll(0.0, false, false)
  {
  }

  /** A prompt shorter than the view can still scroll: the five text sizes of
      padding count too. Lines ending at 40 and 90 px in a 100 px view at a
      text size of 10 px give an extent of 40. */
  lemma ShortPromptStillScrolls()
    ensures MaxScroll(Metrics(Some(TextLayout([40, 90])), 2, 50, 100, 10.0)) == 40.0
  {
  }

  /** The loop checks for the end before it advances, so a position just
      short of the extent moves past it for one tick before it is snapped
      back: with extent 10, position 9 becomes 11 and then 10. */
  lemma OvershootThenSnapBack()
    ensures Tick(Scroll(9.0, true, true), 10.0) == Scroll(11.0, true, true)
    ensures Tick(Scroll(11.0, true, true), 10.0) == Scroll(10.0, false, false)
  {
  }
}
