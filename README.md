# Flompter scroll engine, in Dafny

A model of the scroll engine of Flompter's floating teleprompter overlay
(`FloatingWindowService`): the auto-scroll loop that advances the prompt
text by 2 units per tick at a speed-dependent cadence and pauses at the end
of the text, the maximum scroll extent computed from the text layout, the two
drag gestures (scrolling the text by hand, moving the overlay window), the
speed and size sliders, the play/pause button, the settings saved to and
loaded from the preferences, and the reset to the top on new prompt text.

Layout:

- `common.dfy` (`Common`): Kotlin's `max`/`min` and the float-to-integer casts
  `toInt()` (rounding toward zero) and `toLong()` (also saturating).
- `extent.dfy` (`Extent`): `calculateMaxScroll` over opaque layout metrics.
- `scroll_engine.dfy` (`ScrollEngine`): the tick delay, one loop iteration as a
  pure step on the engine state, runs of several ticks and what they reach.
- `sliders.dfy` (`Sliders`): speed level to speed, size level to font scale and
  text size, and the delay as a function of the level.
- `settings.dfy` (`Settings`): the two slider levels in a key/value store with defaults.
- `drag.dfy` (`Drag`): the clamps of the two drag gestures.
- `service.dfy` (`PrompterService`): class `FloatingWindowService` holding the
  fields the handlers update, one method per handler, and `Tick` for one loop
  iteration, each tied to the pure functions above.
- `scenarios.dfy` (`Scenarios`): a prompt shorter than the view, and the one-tick overshoot.

Positions, speeds and scales are exact `real`s, not 32-bit floats. Slider
values are whole numbers. One loop iteration is one atomic step. That step
covers the `while (isPlaying)` check, the comparison with the extent, the
sleep (returned as a number of milliseconds), the advance and the posted
`scrollTo`. Posted UI updates take effect at once. The view's scroll offset
is kept as the field `viewScrollY`, set by every `scrollTo` to the position
rounded toward zero. The layout metrics (line bottoms, line count, line
height, view height, text size in px), the window height and the screen
height are parameters.

A teleprompter might be expected to behave in the ways listed below. The code does not
always do so, and the model follows the code:

- One might expect the position never to exceed the extent. The loop checks for the end before it
  advances, so one tick can leave the position up to 2 units past the extent. The next tick
  snaps it back (`Scenarios.OvershootThenSnapBack`, `ScrollEngine.RunStaysInBounds`).
- One might expect a font-size change to re-clamp the position to the new extent. The code has that
  clamp commented out, and `UpdateTextSize` does not touch the position.
- One might expect a faster level to reach the end in fewer ticks. The number of ticks does not
  depend on the speed; only the sleep per tick does. So a faster level reaches the end in fewer
  milliseconds (`ScrollEngine.FasterNeverSlower`, `Sliders.Level10FinishesBeforeLevel1`).
- One might expect a prompt shorter than the view not to scroll. The extent adds five text sizes
  of padding below the last line, so a short prompt still scrolls unless that padding fits too.
  For example, line bottoms 40 and 90 in a view 100 high at text size 10 give an extent of 40
  (`Extent.ContentThatFitsDoesNotScroll`, `Scenarios.ShortPromptPausesAtOnce`).
- The comment on the default size level says a font scale of 1.4. The code computes
  (14 + 15) / 20 = 1.45, that is 23.2 sp (`Sliders.DefaultSizeLevel`).

## Model

| member | source | states |
|---|---|---|
| Common.Trunc | app/src/main/java/com/guigulaoshiren/floatingprompter/FloatingWindowService.kt:206 | `toInt()` rounds toward zero: the result has the sign of the input and lies less than 1 from it, never further from zero |
| Common.ToLong | app/src/main/java/com/guigulaoshiren/floatingprompter/FloatingWindowService.kt:318 | `toLong()` stays within the 64-bit range and rounds toward zero inside it |
| Common.ToLongMonotone | app/src/main/java/com/guigulaoshiren/floatingprompter/FloatingWindowService.kt:318 | `toLong()` preserves order, saturation included |
| Extent.MaxScroll | app/src/main/java/com/guigulaoshiren/floatingprompter/FloatingWindowService.kt:369-390 | the extent is never negative in any of the three branches: 0 with no lines; otherwise the least non-negative value at or above `lineCount*lineHeight - height` (no layout) or `lastLineBottom - height + 5*textSize` (layout) |
| Extent.ContentThatFitsDoesNotScroll | app/src/main/java/com/guigulaoshiren/floatingprompter/FloatingWindowService.kt:381-389 | a text whose last line plus 5 text sizes of padding fits in the view has extent 0 |
| Extent.MaxScrollGrowsWithTextSize | app/src/main/java/com/guigulaoshiren/floatingprompter/FloatingWindowService.kt:386-389 | a larger text size never gives a smaller extent |
| Extent.MaxScrollShrinksWithViewHeight | app/src/main/java/com/guigulaoshiren/floatingprompter/FloatingWindowService.kt:372-389 | a taller view never gives a larger extent |
| ScrollEngine.TickDelay | app/src/main/java/com/guigulaoshiren/floatingprompter/FloatingWindowService.kt:318-319 | the sleep is at least 16 ms; for a positive speed it is `max(16, floor(150/speed))`; speed 0 sleeps the largest `Long`; a negative speed gives 16 |
| ScrollEngine.TickDelayNonIncreasing | app/src/main/java/com/guigulaoshiren/floatingprompter/FloatingWindowService.kt:318-319 | a higher positive speed never sleeps longer |
| ScrollEngine.Tick | app/src/main/java/com/guigulaoshiren/floatingprompter/FloatingWindowService.kt:303-322 | without a live loop nothing changes; a loop that finds playback paused exits; at or past the extent the position becomes exactly the extent, playback pauses and the loop ends; before it the position grows by exactly 2 with playback on, and stays below extent + 2; a tick never starts playback and keeps "playing implies a live loop" |
| ScrollEngine.AdvanceTicks | app/src/main/java/com/guigulaoshiren/floatingprompter/FloatingWindowService.kt:309-320 | the count of advancing ticks is 0 exactly at or past the extent; after that many steps of 2 the position is at or past the extent, one step fewer leaves it short |
| ScrollEngine.RunAdvances | app/src/main/java/com/guigulaoshiren/floatingprompter/FloatingWindowService.kt:317-321 | until the end is reached, k ticks of a playing loop move the position by exactly 2k and keep playing |
| ScrollEngine.RunReachesEnd | app/src/main/java/com/guigulaoshiren/floatingprompter/FloatingWindowService.kt:303-316 | a playing loop ends at exactly the extent, paused, with the loop gone, after its advancing ticks plus one |
| ScrollEngine.PausedRunIsInert | app/src/main/java/com/guigulaoshiren/floatingprompter/FloatingWindowService.kt:303 | once playback is paused, no number of further ticks moves the position |
| ScrollEngine.RunStaysInBounds | app/src/main/java/com/guigulaoshiren/floatingprompter/FloatingWindowService.kt:309-320 | a position in [0, extent + 2) stays there over any number of ticks |
| ScrollEngine.FasterNeverSlower | app/src/main/java/com/guigulaoshiren/floatingprompter/FloatingWindowService.kt:318-320 | the time to the end of the text never grows as the speed grows |
| Sliders.DelayOfLevel | app/src/main/java/com/guigulaoshiren/floatingprompter/FloatingWindowService.kt:247 | for a slider level l >= 0 the sleep is the integer formula `max(16, 150 / (l + 1))` |
| Sliders.DelayNonIncreasingInLevel | app/src/main/java/com/guigulaoshiren/floatingprompter/FloatingWindowService.kt:183 | raising the speed slider never lengthens the sleep between ticks |
| Sliders.Level10FinishesBeforeLevel1 | app/src/main/java/com/guigulaoshiren/floatingprompter/FloatingWindowService.kt:318-320 | with text left to scroll, level 10 (16 ms per tick) reaches the end strictly sooner than level 1 (75 ms per tick), in the same number of ticks |
| Sliders.TextSizeStrictlyIncreasing | app/src/main/java/com/guigulaoshiren/floatingprompter/FloatingWindowService.kt:348-350 | a larger size level gives a strictly larger text size |
| Sliders.DefaultSizeLevel | app/src/main/java/com/guigulaoshiren/floatingprompter/FloatingWindowService.kt:30 | the default size level 14 gives font scale 1.45 and 23.2 sp |
| Settings.ReadAfterWrite | app/src/main/java/com/guigulaoshiren/floatingprompter/FloatingWindowService.kt:163-175 | after writing a key, reading it gives the value written, whatever the default; reading any other key gives what it gave before |
| Settings.Save | app/src/main/java/com/guigulaoshiren/floatingprompter/FloatingWindowService.kt:161-169 | saving writes both level keys and no other key changes; loading afterwards returns exactly the saved levels |
| Settings.LoadEmptyStore | app/src/main/java/com/guigulaoshiren/floatingprompter/FloatingWindowService.kt:172-175 | an empty store loads speed level 4 and size level 14 |
| Settings.SaveLoadedIsIdentity | app/src/main/java/com/guigulaoshiren/floatingprompter/FloatingWindowService.kt:161-186 | saving the levels just loaded from a store that holds both keys leaves the store unchanged |
| Settings.LastSaveWins | app/src/main/java/com/guigulaoshiren/floatingprompter/FloatingWindowService.kt:163-166 | of two saves, only the later one is seen |
| Drag.PromptDragClamp | app/src/main/java/com/guigulaoshiren/floatingprompter/FloatingWindowService.kt:205 | a prompt drag lands in [0, extent]: exactly at the finger's target when in range, at 0 below it, at the extent above it |
| Drag.PromptDragClampIsNearest | app/src/main/java/com/guigulaoshiren/floatingprompter/FloatingWindowService.kt:205 | no position in [0, extent] is closer to the target than the clamped one |
| Drag.PromptDragClampIdempotent | app/src/main/java/com/guigulaoshiren/floatingprompter/FloatingWindowService.kt:205 | clamping a clamped position again with no movement changes nothing |
| Drag.WindowDragClamp | app/src/main/java/com/guigulaoshiren/floatingprompter/FloatingWindowService.kt:230 | the window's y is never negative, is at most `screenHeight - viewHeight` whenever the window fits on the screen, follows the finger exactly in range, and is 0 when the window is taller than the screen |
| Drag.WindowDragReversible | app/src/main/java/com/guigulaoshiren/floatingprompter/FloatingWindowService.kt:230 | from a position on the screen, a window drag that hits no edge is undone exactly by the opposite drag |
| PrompterService.FloatingWindowService.constructor | app/src/main/java/com/guigulaoshiren/floatingprompter/FloatingWindowService.kt:60-130 | the new overlay has the declared initial state, the window at the top, playback stopped, and slider levels, speed and text size loaded from the store |
| PrompterService.FloatingWindowService.SaveSettings | app/src/main/java/com/guigulaoshiren/floatingprompter/FloatingWindowService.kt:161-169 | the store becomes the old store with both current slider levels saved |
| PrompterService.FloatingWindowService.LoadSettings | app/src/main/java/com/guigulaoshiren/floatingprompter/FloatingWindowService.kt:172-186 | the sliders hold the stored levels (or defaults), the speed is level + 1 and the text size follows the size level |
| PrompterService.FloatingWindowService.UpdateTextSize | app/src/main/java/com/guigulaoshiren/floatingprompter/FloatingWindowService.kt:343-366 | font scale and text size follow the size slider; nothing else changes, so the position is not re-clamped |
| PrompterService.FloatingWindowService.ApplyPromptText | app/src/main/java/com/guigulaoshiren/floatingprompter/FloatingWindowService.kt:133-139 | new prompt text replaces the text and resets position and shown offset to 0; no text changes nothing |
| PrompterService.FloatingWindowService.OnPromptTouch | app/src/main/java/com/guigulaoshiren/floatingprompter/FloatingWindowService.kt:191-215 | DOWN starts a drag from the shown offset; MOVE while dragging sets the position to the clamp of position minus finger movement, inside [0, extent]; MOVE without a drag changes nothing; UP and CANCEL end the drag |
| PrompterService.FloatingWindowService.OnControlTouch | app/src/main/java/com/guigulaoshiren/floatingprompter/FloatingWindowService.kt:218-240 | DOWN starts a window drag; MOVE while dragging moves the window by the truncated finger movement within the screen; MOVE without a drag changes nothing; UP and CANCEL end the drag |
| PrompterService.FloatingWindowService.OnSpeedChange | app/src/main/java/com/guigulaoshiren/floatingprompter/FloatingWindowService.kt:245-249 | the slider takes the value; the speed becomes value + 1 only when the user made the change |
| PrompterService.FloatingWindowService.OnSpeedStopTracking | app/src/main/java/com/guigulaoshiren/floatingprompter/FloatingWindowService.kt:253-255 | releasing the speed slider saves both levels |
| PrompterService.FloatingWindowService.OnSizeChange | app/src/main/java/com/guigulaoshiren/floatingprompter/FloatingWindowService.kt:259-263 | the slider takes the value; font scale and text size follow only a change the user made |
| PrompterService.FloatingWindowService.OnSizeStopTracking | app/src/main/java/com/guigulaoshiren/floatingprompter/FloatingWindowService.kt:267-270 | releasing the size slider applies the size and saves both levels |
| PrompterService.FloatingWindowService.StartScrolling | app/src/main/java/com/guigulaoshiren/floatingprompter/FloatingWindowService.kt:298-302 | afterwards a loop is alive, which restores "playing implies a live loop"; an already live loop is left as it is |
| PrompterService.FloatingWindowService.StopScrolling | app/src/main/java/com/guigulaoshiren/floatingprompter/FloatingWindowService.kt:334-340 | playback is off and the button reads "play", whatever the prior state |
| PrompterService.FloatingWindowService.OnPlayPauseClick | app/src/main/java/com/guigulaoshiren/floatingprompter/FloatingWindowService.kt:274-282 | the play flag flips; a loop is alive afterwards when playing, and a live loop is never stopped by the click itself |
| PrompterService.FloatingWindowService.Tick | app/src/main/java/com/guigulaoshiren/floatingprompter/FloatingWindowService.kt:303-330 | the service's position, play flag and loop flag change exactly as `ScrollEngine.Tick` says; the view is scrolled to the new position; an advancing tick reports the sleep for the current speed |
| PrompterService.FloatingWindowService.OnDestroy | app/src/main/java/com/guigulaoshiren/floatingprompter/FloatingWindowService.kt:149-156 | teardown leaves playback off and the levels saved |
| PrompterService.Restart | app/src/main/java/com/guigulaoshiren/floatingprompter/FloatingWindowService.kt:149-152 | closing the overlay and building it again restores the same slider levels, speed and text size |
| Scenarios.ShortPromptPausesAtOnce | app/src/main/java/com/guigulaoshiren/floatingprompter/FloatingWindowService.kt:309-316 | a prompt whose last line plus five text sizes of padding fits in the view has extent 0, so pressing play makes one tick that pauses without moving |
| Scenarios.ShortPromptStillScrolls | app/src/main/java/com/guigulaoshiren/floatingprompter/FloatingWindowService.kt:381-389 | a two-line prompt ending 10 px above the bottom of the view still has extent 40 at text size 10, because of the five text sizes of padding |
| Scenarios.OvershootThenSnapBack | app/src/main/java/com/guigulaoshiren/floatingprompter/FloatingWindowService.kt:309-321 | a position just short of the extent goes past it by one tick and is snapped back to it on the next |

## Left out

- The Android window, view and layout machinery: inflation, `addView`/`updateViewLayout`/`removeView`, padding. The text layout is given as opaque metrics.
- The background thread, `Thread.sleep`, posting to the UI thread, and the interrupt and exception handlers of the loop. The loop is modelled one atomic iteration at a time, so a drag racing with a running loop is not modelled.
- A pause, a stop or new prompt text that arrives while an iteration sleeps. The loop sleeps and then adds 2 without reading the play flag again, so that iteration still advances by 2 and scrolls the view before the loop exits. New text during the sleep therefore ends at position 2, not 0. In the model each iteration is atomic, so such events fall between iterations. `ScrollEngine.PausedRunIsInert` covers only a pause between iterations.
- The SharedPreferences file I/O and its file name. The store is a finite map.
- The edit and close buttons. They start the editor and stop the service, which reaches `OnDestroy`.
- Re-creating the overlay in `onStartCommand` when the view has lost its parent, and the `isInitialized` guards. The model's object exists only once its views do, so the guards always hold.
- MainActivity.kt is not part of this model: permission checks, intents and the saved prompt text.
- 32-bit float rounding, and 32-bit integer overflow in `lineCount * lineHeight - height` and in `layoutParams.y + deltaY`.
- Common.Trunc: does not saturate at the bounds of a 32-bit `Int`, because positions and finger movements stay far from them.
- Slider ranges and step sizes come from the layout resources, which are not part of this model. Slider values are any whole numbers.
- The initial text and button label before the first update come from the layout resources. The model starts with empty text and a "play" label.
