/** The two sliders of the control panel: the speed slider's level sets
    `scrollSpeed`, the size slider's level sets `fontScale` and the text size. */
module Sliders {
  import opened Common
  import opened ScrollEngine

  /** `scrollSpeed = (level + 1)`. */
  function SpeedOfLevel(level: int): real
  {
    level as real + 1.0
  }

  /** Size in sp that a font scale of 1 stands for. */
  const BASE_TEXT_SIZE_SP: real := 16.0

  /** `fontScale = (level + 15) / 20`. */
  function FontScaleOfLevel(level: int): real
  {
    (level as real + 15.0) / 20.0
  }

  /** The text size, in sp, handed to the prompt view. */
  function TextSizeOf(fontScale: real): real
  {
    BASE_TEXT_SIZE_SP * fontScale
  }

  /** For a non-negative level the sleep between ticks is the integer formula
      `max(16, 150 / (level + 1))`: the float quotient rounded toward zero is the
      integer quotient. */
  lemma DelayOfLevel(level: int)
    requires 0 <= level
    ensures TickDelay(SpeedOfLevel(level)) == MaxInt(MIN_DELAY_MS, 150 / (level + 1))
  {
    var d := level + 1;
    var q, r := 150 / d, 150 % d;
    assert 150 == q * d + r && 0 <= r < d;
    var x := BASE_DELAY_MS / d as real;
    assert x * d as real == 150.0;
    assert (x - q as real) * d as real == r as real;
    assert q as real <= x by { SignOfFactor(x - q as real, d as real, r as real); }
    assert (q as real + 1.0 - x) * d as real == (d - r) as real;
    assert x < q as real + 1.0 by { SignOfFactor(q as real + 1.0 - x, d as real, (d - r) as real); }
    assert x.Floor == q;
  }

  /** A factor whose product with a positive number is non-negative (positive) is itself so. */
  lemma SignOfFactor(y: real, d: real, p: real)
    requires 0.0 < d && y * d == p
    ensures 0.0 <= p ==> 0.0 <= y
    ensures 0.0 < p ==> 0.0 < y
  {
  }

  /** Moving the speed slider up never lengthens the sleep between ticks. */
  lemma DelayNonIncreasingInLevel(low: int, high: int)
    requires 0 <= low <= high
    ensures TickDelay(SpeedOfLevel(high)) <= TickDelay(SpeedOfLevel(low))
  {
    TickDelayNonIncreasing(SpeedOfLevel(low), SpeedOfLevel(high));
  }

  /** The tick count to the end does not depend on the speed; the time does:
      level 10 sleeps 16 ms per tick and level 1 sleeps 75 ms, so whenever
      there is text left to scroll level 10 reaches the end strictly sooner. */
  lemma Level10FinishesBeforeLevel1(position: real, maxScroll: real)
    requires position < maxScroll
    ensures TimeToEnd(position, maxScroll, SpeedOfLevel(10)) < TimeToEnd(position, maxScroll, SpeedOfLevel(1))
  {
    DelayOfLevel(10);
    DelayOfLevel(1);
  }

  /** A larger size level gives a strictly larger text. */
  lemma TextSizeStrictlyIncreasing(low: int, high: int)
    requires low < high
    ensures TextSizeOf(FontScaleOfLevel(low)) < TextSizeOf(FontScaleOfLevel(high))
  {
  }

  /** The default size level 14 gives a font scale of 1.45, i.e. 23.2 sp, not
      the 1.4 that the constant's comment suggests. */
  lemma DefaultSizeLevel()
    ensures FontScaleOfLevel(14) == 1.45 && TextSizeOf(FontScaleOfLevel(14)) == 23.2
  {
  }
}
