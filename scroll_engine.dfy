/** The auto-scroll loop of `startScrolling`, one iteration at a time.
    Each iteration of `while (isPlaying) { ... }` is one atomic step: it
    checks the play flag, compares the position with the maximum extent, and
    either snaps to the end and pauses or sleeps and advances by a fixed step. */
module ScrollEngine {
  import opened Common

  /** Milliseconds per tick at speed 1. */
  const BASE_DELAY_MS: real := 150.0
  /** The shortest sleep between two ticks. */
  const MIN_DELAY_MS: int := 16
  /** How far one tick advances the scroll position. */
  const STEP: real := 2.0

  /** The sleep before an advancing tick: `max(16, (150 / scrollSpeed).toLong())`.
      At speed 0 the float quotient is +Infinity, which `toLong()` turns
      into the largest `Long`. */
  function TickDelay(speed: real): (d: int)
    ensures MIN_DELAY_MS <= d <= LONG_MAX
    ensures 0.0 < speed ==> d == MaxInt(MIN_DELAY_MS, MinInt((BASE_DELAY_MS / speed).Floor, LONG_MAX))
    ensures speed == 0.0 ==> d == LONG_MAX
    ensures speed < 0.0 ==> d == MIN_DELAY_MS
  {
    var quotient := if speed == 0.0 then LONG_MAX else ToLong(BASE_DELAY_MS / speed);
    MaxInt(MIN_DELAY_MS, quotient)
  }

  /** 150 / s is non-increasing in a positive s. */
  lemma QuotientNonIncreasing(s1: real, s2: real)
    requires 0.0 < s1 <= s2
    ensures BASE_DELAY_MS / s2 <= BASE_DELAY_MS / s1
  {
  }

  /** A higher speed never sleeps longer between ticks. */
  lemma TickDelayNonIncreasing(s1: real, s2: real)
    requires 0.0 < s1 <= s2
    ensures TickDelay(s2) <= TickDelay(s1)
  {
    QuotientNonIncreasing(s1, s2);
    ToLongMonotone(BASE_DELAY_MS / s2, BASE_DELAY_MS / s1);
  }

  /** The engine's part of the service state: the scroll position, the
      play flag, and whether the loop thread is alive. */
  datatype Scroll = Scroll(position: real, playing: bool, looping: bool)

  /** One pass through the loop thread. Without a live thread nothing
      happens; a thread that finds the play flag cleared exits; at or past
      the end the position snaps to `maxScroll`, playback pauses and the
      loop breaks; otherwise the position advances by one step. */
  function Tick(s: Scroll, maxScroll: real): (t: Scroll)
    ensures !s.looping ==> t == s
    ensures s.looping && !s.playing ==> t == s.(looping := false)
    ensures s.looping && s.playing && maxScroll <= s.position ==> t == Scroll(maxScroll, false, false)
    ensures s.looping && s.playing && s.position < maxScroll ==>
      t == s.(position := s.position + STEP) && t.position < maxScroll + STEP
    ensures t.playing ==> s.playing
    ensures (s.playing ==> s.looping) ==> (t.playing ==> t.looping)
  {
    if !s.looping then s
    else if !s.playing then s.(looping := false)
    else if s.position >= maxScroll then Scroll(maxScroll, false, false)
    else s.(position := s.position + STEP)
  }

  /** `n` consecutive loop iterations against a fixed extent. */
  function Run(s: Scroll, maxScroll: real, n: nat): Scroll
    decreases n
  {
    if n == 0 then s else Run(Tick(s, maxScroll), maxScroll, n - 1)
  }

  /** The number of advancing ticks a playing loop takes from `position`
      until the position is at or past `maxScroll`. */
  function AdvanceTicks(position: real, maxScroll: real): (n: nat)
    ensures n == 0 <==> maxScroll <= position
    ensures maxScroll <= position + STEP * n as real
    ensures n > 0 ==> position + STEP * (n - 1) as real < maxScroll
    decreases if position < maxScroll then (maxScroll - position).Floor + 1 else 0
  {
    if position >= maxScroll then 0 else 1 + AdvanceTicks(position + STEP, maxScroll)
  }

  /** While the end is not reached, each tick of a playing loop advances the
      position by exactly one step and keeps playing. */
  lemma {:induction false} RunAdvances(s: Scroll, maxScroll: real, k: nat)
    requires s.looping && s.playing
    requires k <= AdvanceTicks(s.position, maxScroll)
    ensures Run(s, maxScroll, k) == s.(position := s.position + STEP * k as real)
    decreases k
  {
    if k > 0 {
      var t := Tick(s, maxScroll);
      assert t == s.(position := s.position + STEP);
      assert AdvanceTicks(s.position, maxScroll) == 1 + AdvanceTicks(t.position, maxScroll);
      RunAdvances(t, maxScroll, k - 1);
    }
  }

  /** A playing loop ends exactly at the maximum extent, paused, after its
      advancing ticks and one final tick; the loop thread is then gone. */
  lemma {:induction false} RunReachesEnd(s: Scroll, maxScroll: real)
    requires s.looping && s.playing
    ensures Run(s, maxScroll, AdvanceTicks(s.position, maxScroll) + 1) == Scroll(maxScroll, false, false)
    decreases AdvanceTicks(s.position, maxScroll)
  {
    if s.position < maxScroll {
      var t := Tick(s, maxScroll);
      assert AdvanceTicks(s.position, maxScroll) == 1 + AdvanceTicks(t.position, maxScroll);
      RunReachesEnd(t, maxScroll);
    }
  }

  /** Once the play flag is clear, no further tick moves the position. */
  lemma {:induction false} PausedRunIsInert(s: Scroll, maxScroll: real, n: nat)
    requires !s.playing
    ensures Run(s, maxScroll, n).position == s.position
    ensures !Run(s, maxScroll, n).playing
    decreases n
  {
    if n > 0 {
      PausedRunIsInert(Tick(s, maxScroll), maxScroll, n - 1);
    }
  }

  /** A position that starts non-negative and below `maxScroll + STEP`
      stays so on every tick: the loop overshoots the extent by less than
      one step, never more. */
  lemma {:induction false} RunStaysInBounds(s: Scroll, maxScroll: real, n: nat)
    requires 0.0 <= maxScroll
    requires 0.0 <= s.position < maxScroll + STEP
    ensures 0.0 <= Run(s, maxScroll, n).position < maxScroll + STEP
    decreases n
  {
    if n > 0 {
      RunStaysInBounds(Tick(s, maxScroll), maxScroll, n - 1);
    }
  }

  /** The milliseconds a playing loop sleeps before it reaches the end. */
  function TimeToEnd(position: real, maxScroll: real, speed: real): int
  {
    AdvanceTicks(position, maxScroll) * TickDelay(speed)
  }

  /** A faster speed never takes longer to reach the end of the text. */
  lemma FasterNeverSlower(position: real, maxScroll: real, s1: real, s2: real)
    requires 0.0 < s1 <= s2
    ensures TimeToEnd(position, maxScroll, s2) <= TimeToEnd(position, maxScroll, s1)
  {
    TickDelayNonIncreasing(s1, s2);
    var n := AdvanceTicks(position, maxScroll);
    assert n * TickDelay(s2) <= n * TickDelay(s1) by {
      MultiplyMonotone(n, TickDelay(s2), TickDelay(s1));
    }
  }

  lemma MultiplyMonotone(n: nat, a: int, b: int)
    requires a <= b
    ensures n * a <= n * b
  {
  }
}
