/** The two drag gestures: dragging the prompt text scrolls it, dragging the
    control panel moves the overlay window. */
module Drag {
  import opened Common

  /** A prompt drag move: `max(0, min(position - deltaY, maxScroll))`, the
      point of `[0, maxScroll]` nearest to where the finger moved the text. */
  function PromptDragClamp(position: real, deltaY: real, maxScroll: real): (r: real)
    ensures 0.0 <= r
    ensures 0.0 <= maxScroll ==> r <= maxScroll
    ensures 0.0 <= position - deltaY <= maxScroll ==> r == position - deltaY
    ensures position - deltaY < 0.0 || maxScroll < 0.0 ==> r == 0.0
    ensures 0.0 <= maxScroll < position - deltaY ==> r == maxScroll
  {
    MaxReal(0.0, MinReal(position - deltaY, maxScroll))
  }

  function Distance(a: real, b: real): real
  {
    if a <= b then b - a else a - b
  }

  /** No position in range is closer to the dragged-to target than the
      clamped one. */
  lemma PromptDragClampIsNearest(position: real, deltaY: real, maxScroll: real, q: real)
    requires 0.0 <= q <= maxScroll
    ensures Distance(PromptDragClamp(position, deltaY, maxScroll), position - deltaY)
         <= Distance(q, position - deltaY)
  {
  }

  /** Clamping a position that is already in range with no movement keeps it. */
  lemma PromptDragClampIdempotent(position: real, deltaY: real, maxScroll: real)
    requires 0.0 <= maxScroll
    ensures var r := PromptDragClamp(position, deltaY, maxScroll);
      PromptDragClamp(r, 0.0, maxScroll) == r
  {
  }

  /** A control-panel drag move: `max(0, min(y + deltaY, screenHeight - viewHeight))`.
      The window never goes above the top of the screen, and never below its
      bottom as long as it is no taller than the screen. */
  function WindowDragClamp(y: int, deltaY: int, screenHeight: int, viewHeight: int): (r: int)
    ensures 0 <= r
    ensures viewHeight <= screenHeight ==> r <= screenHeight - viewHeight
    ensures 0 <= y + deltaY <= screenHeight - viewHeight ==> r == y + deltaY
    ensures screenHeight < viewHeight ==> r == 0
  {
    MaxInt(0, MinInt(y + deltaY, screenHeight - viewHeight))
  }

  /** Dragging the window by some amount and then back by the same amount
      returns it to where it was, as long as neither move hit an edge. */
  lemma WindowDragReversible(y: int, deltaY: int, screenHeight: int, viewHeight: int)
    requires 0 <= y <= screenHeight - viewHeight
    requires 0 <= y + deltaY <= screenHeight - viewHeight
    ensures WindowDragClamp(WindowDragClamp(y, deltaY, screenHeight, viewHeight), -deltaY, screenHeight, viewHeight) == y
  {
  }
}
