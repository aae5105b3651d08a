/**
 * A timeline item as drawn on the ruler: a circle above one tick that carries a
 * TimeItem.  It knows its real position and the time of that position, and
 * moves one tick forward or back when items are inserted or deleted before it.
 */
module CircleIndicators {
  import opened KotlinNumerics
  import opened RulerScale
  import opened TimeItems

  class CircleIndicator {
    const timeItem: TimeItem
    /** The number drawn in the circle: the item's flag. */
    const value: int
    const backgroundColor: int
    const radius: int
    /** Top of the circle, as a view coordinate. */
    const top: real

    var realPosition: real
    /** The time of realPosition (truncated, on the 200 ms grid). */
    var time: int
    var screenPosition: int
    var isSelected: bool
    var isShowing: bool
    /** The show animation was started for an insertion (selection is refreshed while it runs). */
    var isInserted: bool
    var isDeleting: bool
    var isMoving: bool
    var rectLeft: int
    var rectTop: int
    var rectRight: int
    var rectBottom: int

    /** The cached time is the time of the real position. */
    ghost predicate TimeMatches(s: Scale)
      reads this`realPosition, this`time
    {
      time == CalcTimeMillisecond(s, realPosition, false)
    }

    /** The hit rectangle is the 2·radius square whose left edge is radius left of the screen position. */
    ghost predicate RectFresh()
      reads this
    {
      rectLeft == screenPosition - radius && rectTop == TruncToInt(top)
      && rectRight == rectLeft + radius * 2 && rectBottom == rectTop + radius * 2
    }

    /** A new item: its time is the time of its position; a colour of 0 means white. */
    constructor (s: Scale, item: TimeItem, position: real, radius: int, top: real)
      ensures TimeMatches(s)
      ensures timeItem == item && value == item.flag && realPosition == position
      ensures backgroundColor == (if item.backgroundColor == 0 then White else item.backgroundColor)
      ensures this.radius == radius && this.top == top
      ensures !isSelected && !isShowing && !isInserted && !isDeleting && !isMoving
      ensures screenPosition == 0 && rectLeft == 0 && rectTop == TruncToInt(top)
      ensures rectRight == radius * 2 && rectBottom == rectTop + radius * 2
    {
      timeItem := item;
      value := item.flag;
      backgroundColor := if item.backgroundColor == 0 then White else item.backgroundColor;
      this.radius := radius;
      this.top := top;
      realPosition := position;
      time := CalcTimeMillisecond(s, position, false);
      screenPosition := 0;
      isSelected := false;
      isShowing := false;
      isInserted := false;
      isDeleting := false;
      isMoving := false;
      rectLeft := 0;
      rectTop := TruncToInt(top);
      rectRight := radius * 2;
      rectBottom := TruncToInt(top) + radius * 2;
    }

    /** `refreshRect`: rebuild the hit rectangle around the screen position. */
    method RefreshRect()
      modifies this`rectLeft, this`rectTop, this`rectRight, this`rectBottom
      ensures RectFresh()
    {
      rectLeft := screenPosition - radius;
      rectTop := TruncToInt(top);
      rectRight := rectLeft + radius * 2;
      rectBottom := rectTop + radius * 2;
    }

    /** `isTouched`: the touch point lies in the hit rectangle (top edge excluded). */
    predicate IsTouched(x: int, y: int)
      reads this
    {
      rectLeft <= x <= rectRight && rectTop < y <= rectBottom
    }

    /**
     * `moveTo`: jump to a position.  The position and its time change at once,
     * whether or not the move is animated (`animate` only drives the drawing).
     */
    method MoveTo(s: Scale, position: real, animate: bool)
      modifies this`realPosition, this`time, this`isMoving
      ensures realPosition == position && TimeMatches(s) && isMoving
    {
      isMoving := true;
      realPosition := position;
      time := CalcTimeMillisecond(s, realPosition, false);
    }

    /**
     * The shift `addTimeItem` and `deleteTimeItem` give an item that is off the
     * screen, as written: the position moves by delta, the cached time stays.
     */
    method ShiftPositionOnly(delta: real)
      modifies this`realPosition
      ensures realPosition == old(realPosition) + delta && time == old(time)
    {
      realPosition := realPosition + delta;
    }

    /** The off-screen shift as intended: the position moves by delta and the time follows it. */
    method ShiftBy(s: Scale, delta: real)
      modifies this`realPosition, this`time
      ensures realPosition == old(realPosition) + delta && TimeMatches(s)
    {
      realPosition := realPosition + delta;
      time := CalcTimeMillisecond(s, realPosition, false);
    }

    /** `moveToNext`: one tick later; the item is no longer drawn as selected. */
    method MoveToNext(s: Scale, animate: bool)
      modifies this`realPosition, this`time, this`isMoving, this`isSelected
      ensures realPosition == old(realPosition) + s.segmentWidth
      ensures TimeMatches(s) && isMoving && !isSelected
    {
      MoveTo(s, realPosition + s.segmentWidth, animate);
      isSelected := false;
    }

    /** `moveToPrevious`: one tick earlier. */
    method MoveToPrevious(s: Scale, animate: bool)
      modifies this`realPosition, this`time, this`isMoving
      ensures realPosition == old(realPosition) - s.segmentWidth
      ensures TimeMatches(s) && isMoving
    {
      MoveTo(s, realPosition - s.segmentWidth, animate);
    }

    /** `show`: start the fade-in at the current screen position. */
    method Show(currentLeft: real, inserted: bool)
      modifies this`isShowing, this`isInserted, this`screenPosition,
               this`rectLeft, this`rectTop, this`rectRight, this`rectBottom
      ensures isShowing && isInserted == inserted
      ensures screenPosition == TruncToInt(realPosition - currentLeft) && RectFresh()
    {
      isShowing := true;
      isInserted := inserted;
      screenPosition := TruncToInt(realPosition - currentLeft);
      RefreshRect();
    }

    /**
     * The fade-in has ended (the draw that follows the show animation): the item
     * is selected when it is on the playhead's tick, and the ruler is told.
     */
    method FinishShow(s: Scale, currentLeft: real, playheadPosition: real)
      requires s.segmentWidth > 0.0
      modifies this`isShowing, this`isInserted, this`screenPosition, this`isSelected,
               this`rectLeft, this`rectTop, this`rectRight, this`rectBottom
      ensures !isShowing && !isInserted
      ensures isSelected <==> CalcTimeIndex(s, realPosition, true) == CalcTimeIndex(s, playheadPosition, true)
      ensures screenPosition == TruncToInt(realPosition - currentLeft) && RectFresh()
    {
      screenPosition := TruncToInt(realPosition - currentLeft);
      RefreshRect();
      isSelected := CalcTimeIndex(s, realPosition, true) == CalcTimeIndex(s, playheadPosition, true);
      isShowing := false;
      isInserted := false;
    }

    /** `delete`: start the fade-out. */
    method Delete()
      modifies this`isDeleting
      ensures isDeleting
    {
      isDeleting := true;
    }

    /** The fade-out has ended; the ruler is told next. */
    method FinishDelete()
      modifies this`isDeleting
      ensures !isDeleting
    {
      isDeleting := false;
    }

    /**
     * `refreshPosAndDraw`: follow the scroll offset, and be selected exactly when
     * on the same (rounded) tick as the playhead.
     */
    method RefreshPosAndDraw(s: Scale, currentLeft: real, playheadPosition: real)
      requires s.segmentWidth > 0.0
      modifies this`screenPosition, this`isSelected,
               this`rectLeft, this`rectTop, this`rectRight, this`rectBottom
      ensures screenPosition == TruncToInt(realPosition - currentLeft) && RectFresh()
      ensures isSelected <==> CalcTimeIndex(s, realPosition, true) == CalcTimeIndex(s, playheadPosition, true)
    {
      screenPosition := TruncToInt(realPosition - currentLeft);
      isSelected := CalcTimeIndex(s, realPosition, true) == CalcTimeIndex(s, playheadPosition, true);
      RefreshRect();
    }

    /**
     * Once the rectangle is fresh, a touch hits the item exactly when it is within
     * radius of the screen position horizontally and within the circle's height
     * below its top.
     */
    lemma TouchedWithinRadius(x: int, y: int)
      requires RectFresh()
      ensures IsTouched(x, y) <==>
        (-radius <= x - screenPosition <= radius && TruncToInt(top) < y <= TruncToInt(top) + 2 * radius)
    {
    }
  }

  /**
   * After `ShiftPositionOnly` by one tick, an item that sat on tick k (and so
   * had time k·200 ms) lies on tick k + 1 but still reports k·200 ms: its time
   * no longer matches its position.
   */
  lemma ShiftPositionOnlyLeavesStaleTime(s: Scale, k: int)
    requires s.Valid() && s.segmentWidth * s.timeOfPerPixel == s.segmentTimeInterval
    requires s.segmentTimeInterval == NormalSegmentTimeInterval && k >= 0
    ensures var stale := CalcTimeMillisecond(s, TickPosition(s, k), false);
      && stale == k * Quantum
      && CalcTimeMillisecond(s, TickPosition(s, k) + s.segmentWidth, false) == stale + Quantum
  {
    TickTimeCorrespondence(s, k);
    TickTimeCorrespondence(s, k + 1);
    NextTick(s.begin, k as real, s.segmentWidth);
  }
}
