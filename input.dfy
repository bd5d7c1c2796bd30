/**
 * The input channels of the lightbox: the keydown dispatch, the swipe
 * classifier applied on touchend, and the touch tracker that feeds it.
 */
module Input {
  import opened Wrappers

  /** What an input asks the lightbox to do. */
  datatype Command = Close | Navigate(direction: int)

  /** The key dispatch while the overlay is shown; any other key does nothing. */
  function KeyCommand(key: string): (c: Option<Command>)
    ensures c == Some(Close) <==> key == "Escape"
    ensures c == Some(Navigate(-1)) <==> key == "ArrowLeft"
    ensures c == Some(Navigate(1)) <==> key == "ArrowRight" || key == " "
    ensures c.None? <==> key !in {"Escape", "ArrowLeft", "ArrowRight", " "}
  {
    match key
    case "Escape" => Some(Close)
    case "ArrowLeft" => Some(Navigate(-1))
    case "ArrowRight" => Some(Navigate(1))
    case " " => Some(Navigate(1))
    case _ => None
  }

  /** The keys whose browser default (scrolling, history) is suppressed. */
  predicate PreventsDefault(key: string): (b: bool)
    ensures b ==> KeyCommand(key).Some?
  {
    key == "ArrowLeft" || key == "ArrowRight" || key == " "
  }

  /** Exactly the navigation keys suppress the default; Escape closes without doing so. */
  lemma PreventsDefaultOnlyWhenNavigating(key: string)
    ensures PreventsDefault(key) <==> KeyCommand(key).Some? && KeyCommand(key).value.Navigate?
  {
  }

  const MinSwipeDistance := 50
  const CloseSwipeDistance := 100

  function Abs(x: int): (a: nat)
  {
    if x < 0 then -x else x
  }

  /**
   * The outcome of one touchend: the horizontal test may ask for a step and,
   * independently, the vertical test may ask to close.
   */
  datatype Swipe = Swipe(navigate: Option<int>, close: bool)

  /**
   * Classifies a gesture from diffX = startX - endX and diffY = startY - endY.
   * A mostly horizontal move longer than 50 steps: forward when the finger
   * moved left, back when it moved right. A move more than 100 down with less
   * than 50 sideways closes.
   */
  function ClassifySwipe(diffX: int, diffY: int): (s: Swipe)
    ensures s.navigate == Some(1) <==> Abs(diffX) > Abs(diffY) && diffX > MinSwipeDistance
    ensures s.navigate == Some(-1) <==> Abs(diffX) > Abs(diffY) && diffX < -MinSwipeDistance
    ensures s.navigate.None? <==> Abs(diffX) <= Abs(diffY) || Abs(diffX) <= MinSwipeDistance
    ensures s.close <==> diffY < -CloseSwipeDistance && Abs(diffX) < MinSwipeDistance
    ensures s.close ==> Abs(diffY) > Abs(diffX)
  {
    var horizontal := Abs(diffX) > Abs(diffY) && Abs(diffX) > MinSwipeDistance;
    Swipe(if horizontal then (if diffX > 0 then Some(1) else Some(-1)) else None,
          diffY < -CloseSwipeDistance && Abs(diffX) < MinSwipeDistance)
  }

  /** A gesture never both navigates and closes. */
  lemma SwipeOutcomesExclusive(diffX: int, diffY: int)
    ensures !(ClassifySwipe(diffX, diffY).navigate.Some? && ClassifySwipe(diffX, diffY).close)
  {
  }

  /**
   * The coordinates the touch handlers keep between events. A zero
   * coordinate counts as "no touch started", as the handlers test it for truthiness.
   */
  class TouchTracker {
    var startX: int
    var startY: int
    var isDragging: bool

    constructor ()
      ensures startX == 0 && startY == 0 && !isDragging
    {
      startX, startY, isDragging := 0, 0, false;
    }

    /** touchstart: remember where the finger went down. */
    method TouchStart(x: int, y: int)
      modifies this
      ensures startX == x && startY == y && !isDragging
    {
      startX, startY, isDragging := x, y, false;
    }

    /** touchmove: a move counts only after a start with both coordinates non-zero. */
    method TouchMove()
      modifies this`isDragging
      ensures isDragging == if startX == 0 || startY == 0 then old(isDragging) else true
    {
      if startX == 0 || startY == 0 {
        return;
      }
      isDragging := true;
    }

    /**
     * touchend: without a recorded start and a move nothing happens and the
     * tracker is left as it was; otherwise the gesture is classified and the
     * tracker reset.
     */
    method TouchEnd(endX: int, endY: int) returns (swipe: Option<Swipe>)
      modifies this
      ensures old(startX == 0 || startY == 0 || !isDragging) ==> swipe == None && unchanged(this)
      ensures old(startX != 0 && startY != 0 && isDragging) ==>
        swipe == Some(ClassifySwipe(old(startX) - endX, old(startY) - endY))
        && startX == 0 && startY == 0 && !isDragging
    {
      if startX == 0 || startY == 0 || !isDragging {
        return None;
      }
      var diffX := startX - endX;
      var diffY := startY - endY;
      swipe := Some(ClassifySwipe(diffX, diffY));
      startX, startY, isDragging := 0, 0, false;
    }
  }
}
