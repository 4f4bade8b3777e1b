/** The overlay service's own state and its event handlers: touch on the
    prompt and on the control panel, the two sliders, the play/pause button,
    one iteration of the scroll loop, new prompt text, and teardown. */
module PrompterService {
  import opened Common
  import opened Extent
  import ScrollEngine
  import opened Sliders
  import Settings
  import opened Drag

  /** Text of the play/pause button. */
  datatype ButtonLabel = PlayLabel | PauseLabel

  /** The touch actions the handlers tell apart; any other action is ignored. */
  datatype Action = ActionDown | ActionMove | ActionUp | ActionCancel | ActionOther

  /** A touch event: its action and its raw screen y coordinate. */
  datatype MotionEvent = MotionEvent(action: Action, rawY: real)

  /** What one loop iteration did: the thread found playback paused and
      exited, it reached the end and paused, or it slept for the given number
      of milliseconds and advanced. */
  datatype TickOutcome = LoopExited | ReachedEnd | Advanced(sleptMs: int)

  class FloatingWindowService {
    var promptText: string
    var scrollPosition: real
    var isPlaying: bool
    /** Whether the scroll loop thread is alive (`scrollingThread?.isAlive`). */
    var loopRunning: bool
    var scrollSpeed: real
    var fontScale: real
    /** Text size handed to the prompt view, in sp. */
    var textSize: real
    /** Current value of the speed slider. */
    var speedLevel: int
    /** Current value of the size slider. */
    var sizeLevel: int
    var isDraggingPrompt: bool
    var lastYPrompt: real
    var isDraggingControl: bool
    var lastYControl: real
    /** The overlay window's y offset (`layoutParams.y`). */
    var windowY: int
    var screenHeight: int
    /** The prompt view's own scroll offset, as last set by `scrollTo`. */
    var viewScrollY: int
    var playLabel: ButtonLabel
    /** The preferences file. */
    var prefs: Settings.Store

    /** The position is never negative, nor is the offset shown or the window's
        y; the button reads "pause" exactly while playing. */
    ghost predicate ValidButLoop()
      reads this
    {
      && 0.0 <= scrollPosition
      && 0 <= viewScrollY
      && 0 <= windowY
      && (playLabel == PauseLabel <==> isPlaying)
    }

    /** ... and a playing service always has a live loop thread. */
    ghost predicate Valid()
      reads this
    {
      ValidButLoop() && (isPlaying ==> loopRunning)
    }

    /** The scroll engine's view of this service. */
    function Engine(): ScrollEngine.Scroll
      reads this
    {
      ScrollEngine.Scroll(scrollPosition, isPlaying, loopRunning)
    }

    /** The service once its overlay has been built: fields at their declared
        initial values, the window at the top, and the slider levels, speed
        and text size loaded from `store`. */
    constructor (store: Settings.Store, screenHeight: int)
      ensures Valid()
      ensures prefs == store && this.screenHeight == screenHeight
      ensures Settings.Levels(speedLevel, sizeLevel) == Settings.Load(store)
      ensures scrollSpeed == SpeedOfLevel(speedLevel)
      ensures fontScale == FontScaleOfLevel(sizeLevel) && textSize == TextSizeOf(fontScale)
      ensures scrollPosition == 0.0 && viewScrollY == 0 && windowY == 0
      ensures !isPlaying && !loopRunning && playLabel == PlayLabel
      ensures !isDraggingPrompt && !isDraggingControl
    {
      promptText := "";
      scrollPosition := 0.0;
      isPlaying := false;
      loopRunning := false;
      scrollSpeed := 5.0;
      fontScale := 1.0;
      textSize := TextSizeOf(1.0);
      speedLevel := Settings.DEFAULT_SPEED_PROGRESS;
      sizeLevel := Settings.DEFAULT_SIZE_PROGRESS;
      isDraggingPrompt := false;
      lastYPrompt := 0.0;
      isDraggingControl := false;
      lastYControl := 0.0;
      windowY := 0;
      this.screenHeight := screenHeight;
      viewScrollY := 0;
      playLabel := PlayLabel;
      prefs := store;
      new;
      LoadSettings();
    }

    /** `saveSettings`: writes both slider levels to the preferences. */
    method SaveSettings()
      requires Valid()
      modifies this`prefs
      ensures Valid()
      ensures prefs == Settings.Save(old(prefs), Settings.Levels(speedLevel, sizeLevel))
    {
      prefs := Settings.Save(prefs, Settings.Levels(speedLevel, sizeLevel));
    }

    /** `loadSettings`: sets both sliders from the preferences, then the speed
        and the text size from them. */
    method LoadSettings()
      requires Valid()
      modifies this`speedLevel, this`sizeLevel, this`scrollSpeed, this`fontScale, this`textSize
      ensures Valid()
      ensures Settings.Levels(speedLevel, sizeLevel) == Settings.Load(prefs)
      ensures scrollSpeed == SpeedOfLevel(speedLevel)
      ensures fontScale == FontScaleOfLevel(sizeLevel) && textSize == TextSizeOf(fontScale)
    {
      var levels := Settings.Load(prefs);
      speedLevel := levels.speed;
      sizeLevel := levels.size;
      scrollSpeed := SpeedOfLevel(levels.speed);
      UpdateTextSize();
    }

    /** `updateTextSize`: font scale and text size follow the size slider.
        The scroll position is not re-clamped to the new extent. */
    method UpdateTextSize()
      requires Valid()
      modifies this`fontScale, this`textSize
      ensures Valid()
      ensures fontScale == FontScaleOfLevel(sizeLevel) && textSize == TextSizeOf(fontScale)
    {
      fontScale := FontScaleOfLevel(sizeLevel);
      textSize := TextSizeOf(fontScale);
    }

    /** New prompt text, when the start request carries any, replaces the
        text and scrolls back to the top. */
    method ApplyPromptText(text: Option<string>)
      requires Valid()
      modifies this`promptText, this`scrollPosition, this`viewScrollY
      ensures Valid()
      ensures text.Some? ==> promptText == text.value && scrollPosition == 0.0 && viewScrollY == 0
      ensures text.None? ==>
        promptText == old(promptText) && scrollPosition == old(scrollPosition) && viewScrollY == old(viewScrollY)
    {
      if text.Some? {
        promptText := text.value;
        scrollPosition := 0.0;
        viewScrollY := 0;
      }
    }

    /** Touch on the prompt text. DOWN starts a drag from the offset the view
        shows; MOVE, while dragging, scrolls by the finger's movement within
        `[0, MaxScroll(m)]`; UP and CANCEL end the drag. */
    method OnPromptTouch(ev: MotionEvent, m: Metrics)
      requires Valid()
      modifies this`isDraggingPrompt, this`lastYPrompt, this`scrollPosition, this`viewScrollY
      ensures Valid()
      ensures ev.action == ActionDown ==>
        isDraggingPrompt && lastYPrompt == ev.rawY && scrollPosition == old(viewScrollY) as real
        && viewScrollY == old(viewScrollY)
      ensures ev.action == ActionMove && old(isDraggingPrompt) ==>
        && scrollPosition == PromptDragClamp(old(scrollPosition), ev.rawY - old(lastYPrompt), MaxScroll(m))
        && 0.0 <= scrollPosition <= MaxScroll(m)
        && viewScrollY == Trunc(scrollPosition)
        && lastYPrompt == ev.rawY && isDraggingPrompt
      ensures ev.action == ActionMove && !old(isDraggingPrompt) ==>
        !isDraggingPrompt && lastYPrompt == old(lastYPrompt)
        && scrollPosition == old(scrollPosition) && viewScrollY == old(viewScrollY)
      ensures ev.action in {ActionUp, ActionCancel, ActionOther} ==>
        lastYPrompt == old(lastYPrompt) && scrollPosition == old(scrollPosition)
        && viewScrollY == old(viewScrollY)
      ensures ev.action in {ActionUp, ActionCancel} ==> !isDraggingPrompt
      ensures ev.action == ActionOther ==> isDraggingPrompt == old(isDraggingPrompt)
    {
      match ev.action
      case ActionDown =>
        isDraggingPrompt := true;
        lastYPrompt := ev.rawY;
        scrollPosition := viewScrollY as real;
      case ActionMove =>
        if isDraggingPrompt {
          var deltaY := ev.rawY - lastYPrompt;
          var maxScroll := MaxScroll(m);
          scrollPosition := PromptDragClamp(scrollPosition, deltaY, maxScroll);
          viewScrollY := Trunc(scrollPosition);
          lastYPrompt := ev.rawY;
        }
      case ActionUp =>
        isDraggingPrompt := false;
      case ActionCancel =>
        isDraggingPrompt := false;
      case ActionOther =>
    }

    /** Touch on the control panel: drags the overlay window, whose height is
        `viewHeight`, up and down within the screen. */
    method OnControlTouch(ev: MotionEvent, viewHeight: int)
      requires Valid()
      modifies this`isDraggingControl, this`lastYControl, this`windowY
      ensures Valid()
      ensures ev.action == ActionDown ==>
        isDraggingControl && lastYControl == ev.rawY && windowY == old(windowY)
      ensures ev.action == ActionMove && old(isDraggingControl) ==>
        && windowY == WindowDragClamp(old(windowY), Trunc(ev.rawY - old(lastYControl)), screenHeight, viewHeight)
        && (viewHeight <= screenHeight ==> windowY <= screenHeight - viewHeight)
        && lastYControl == ev.rawY && isDraggingControl
      ensures ev.action == ActionMove && !old(isDraggingControl) ==>
        !isDraggingControl && lastYControl == old(lastYControl) && windowY == old(windowY)
      ensures ev.action in {ActionUp, ActionCancel, ActionOther} ==>
        lastYControl == old(lastYControl) && windowY == old(windowY)
      ensures ev.action in {ActionUp, ActionCancel} ==> !isDraggingControl
      ensures ev.action == ActionOther ==> isDraggingControl == old(isDraggingControl)
    {
      match ev.action
      case ActionDown =>
        isDraggingControl := true;
        lastYControl := ev.rawY;
      case ActionMove =>
        if isDraggingControl {
          var deltaY := ev.rawY - lastYControl;
          windowY := WindowDragClamp(windowY, Trunc(deltaY), screenHeight, viewHeight);
          lastYControl := ev.rawY;
        }
      case ActionUp =>
        isDraggingControl := false;
      case ActionCancel =>
        isDraggingControl := false;
      case ActionOther =>
    }

    /** The speed slider moved to `value`; the speed follows only a change
        made by the user. */
    method OnSpeedChange(value: int, fromUser: bool)
      requires Valid()
      modifies this`speedLevel, this`scrollSpeed
      ensures Valid()
      ensures speedLevel == value
      ensures scrollSpeed == if fromUser then SpeedOfLevel(value) else old(scrollSpeed)
    {
      speedLevel := value;
      if fromUser {
        scrollSpeed := SpeedOfLevel(value);
      }
    }

    /** The user let go of the speed slider. */
    method OnSpeedStopTracking()
      requires Valid()
      modifies this`prefs
      ensures Valid()
      ensures prefs == Settings.Save(old(prefs), Settings.Levels(speedLevel, sizeLevel))
    {
      SaveSettings();
    }

    /** The size slider moved to `value`; the text size follows only a
        change made by the user. */
    method OnSizeChange(value: int, fromUser: bool)
      requires Valid()
      modifies this`sizeLevel, this`fontScale, this`textSize
      ensures Valid()
      ensures sizeLevel == value
      ensures fromUser ==> fontScale == FontScaleOfLevel(value) && textSize == TextSizeOf(fontScale)
      ensures !fromUser ==> fontScale == old(fontScale) && textSize == old(textSize)
    {
      sizeLevel := value;
      if fromUser {
        UpdateTextSize();
      }
    }

    /** The user let go of the size slider: apply the final size and save. */
    method OnSizeStopTracking()
      requires Valid()
      modifies this`fontScale, this`textSize, this`prefs
      ensures Valid()
      ensures fontScale == FontScaleOfLevel(sizeLevel) && textSize == TextSizeOf(fontScale)
      ensures prefs == Settings.Save(old(prefs), Settings.Levels(speedLevel, sizeLevel))
    {
      UpdateTextSize();
      SaveSettings();
    }

    /** `startScrolling`: starts a loop thread unless one is still alive.
        It runs right after the play flag was set, before a loop exists, so it
        re-establishes the loop clause of `Valid()`. */
    method StartScrolling()
      requires ValidButLoop()
      modifies this`loopRunning
      ensures Valid()
      ensures loopRunning && (old(loopRunning) ==> loopRunning == old(loopRunning))
    {
      if loopRunning {
        return;
      }
      loopRunning := true;
    }

    /** `stopScrolling`: clears the play flag; the loop thread notices at its
        next iteration. */
    method StopScrolling()
      requires Valid()
      modifies this`isPlaying, this`playLabel
      ensures Valid()
      ensures !isPlaying && playLabel == PlayLabel
    {
      isPlaying := false;
      if playLabel != PlayLabel {
        playLabel := PlayLabel;
      }
    }

    /** The play/pause button: flips the play flag and the label, then
        starts a loop (a no-op while one is alive) or stops playback. */
    method OnPlayPauseClick()
      requires Valid()
      modifies this`isPlaying, this`playLabel, this`loopRunning
      ensures Valid()
      ensures isPlaying == !old(isPlaying)
      ensures loopRunning == (old(loopRunning) || isPlaying)
    {
      isPlaying := !isPlaying;
      playLabel := if isPlaying then PauseLabel else PlayLabel;
      if isPlaying {
        StartScrolling();
      } else {
        StopScrolling();
      }
    }

    /** One iteration of the scroll loop, metrics `m` being the prompt view's
        layout at that moment. The new engine state is the engine's tick; the
        view is scrolled to the new position; reaching the end resets the
        button to "play". */
    method Tick(m: Metrics) returns (outcome: TickOutcome)
      requires Valid()
      modifies this`scrollPosition, this`isPlaying, this`loopRunning, this`viewScrollY, this`playLabel
      ensures Valid()
      ensures Engine() == ScrollEngine.Tick(old(Engine()), MaxScroll(m))
      ensures !old(loopRunning) ==> outcome == LoopExited && viewScrollY == old(viewScrollY)
      ensures old(loopRunning) && !old(isPlaying) ==> outcome == LoopExited && viewScrollY == old(viewScrollY)
      ensures old(loopRunning) && old(isPlaying) ==>
        && viewScrollY == Trunc(scrollPosition)
        && outcome == if old(scrollPosition) >= MaxScroll(m) then ReachedEnd
                      else Advanced(ScrollEngine.TickDelay(scrollSpeed))
    {
      if !loopRunning {
        return LoopExited;
      }
      if !isPlaying {
        loopRunning := false;
        return LoopExited;
      }
      var maxScroll := MaxScroll(m);
      if scrollPosition >= maxScroll {
        scrollPosition := maxScroll;
        viewScrollY := Trunc(scrollPosition);
        isPlaying := false;
        playLabel := PlayLabel;
        loopRunning := false;
        outcome := ReachedEnd;
      } else {
        var delay := ScrollEngine.TickDelay(scrollSpeed);
        scrollPosition := scrollPosition + ScrollEngine.STEP;
        viewScrollY := Trunc(scrollPosition);
        outcome := Advanced(delay);
      }
    }

    /** `onDestroy` (reached through the close and edit buttons too): stops
        playback and saves the slider levels. */
    method OnDestroy()
      requires Valid()
      modifies this`isPlaying, this`playLabel, this`prefs
      ensures Valid()
      ensures !isPlaying && playLabel == PlayLabel
      ensures prefs == Settings.Save(old(prefs), Settings.Levels(speedLevel, sizeLevel))
    {
      StopScrolling();
      SaveSettings();
    }
  }

  /** Closing the overlay and starting it again brings back the same slider
      levels, speed and text size. */
  method Restart(service: FloatingWindowService) returns (next: FloatingWindowService)
    requires service.Valid()
    modifies service
    ensures next.Valid()
    ensures next.speedLevel == old(service.speedLevel) && next.sizeLevel == old(service.sizeLevel)
    ensures next.scrollSpeed == SpeedOfLevel(next.speedLevel)
    ensures next.textSize == TextSizeOf(FontScaleOfLevel(next.sizeLevel))
  {
    service.OnDestroy();
    next := new FloatingWindowService(service.prefs, service.screenHeight);
  }
}
