/**
 * A timeline item of the integer-position ruler: a circle above one tick that
 * carries a TimeItem.  Its position on the timeline is a whole number of
 * pixels (a multiple of the 100 px segment while it sits on a tick), and it
 * is drawn as selected when the playhead is on the same position.
 */
module LegacyCircleIndicators {
  import opened KotlinNumerics
  import opened TimeItems
  import opened LegacyScale

  class CircleIndicator {
    const timeItem: TimeItem
    /** The number drawn in the circle: the item's flag. */
    const value: int
    const backgroundColor: int
    const radius: int
    /** Top of the circle, as a view coordinate. */
    const top: real

    /** Position on the timeline. */
    var timePosition: int
    /** Position on the screen. */
    var currentPosition: int
    var isSelected: bool
    var isShowing: bool
    var isDeleting: bool
    var isMoving: bool
    var rectLeft: int
    var rectTop: int
    var rectRight: int
    var rectBottom: int

    /** The hit rectangle is the 2·radius square whose left edge is radius left of the screen position. */
    ghost predicate RectFresh()
      reads this
    {
      rectLeft == currentPosition - radius && rectTop == TruncToInt(top)
      && rectRight == rectLeft + radius * 2 && rectBottom == rectTop + radius * 2
    }

    /**
     * A new item at a timeline position: selected when the playhead is on that
     * position, white when its colour is 0.  The first rectangle starts at the
     * screen position itself (not radius to its left).
     */
    constructor (item: TimeItem, timePosition: int, playheadPosition: int, radius: int, top: real)
      ensures timeItem == item && value == item.flag && this.timePosition == timePosition
      ensures backgroundColor == (if item.backgroundColor == 0 then White else item.backgroundColor)
      ensures this.radius == radius && this.top == top
      ensures isSelected <==> timePosition == playheadPosition
      ensures !isShowing && !isDeleting && !isMoving
      ensures currentPosition == 0 && rectLeft == 0 && rectTop == TruncToInt(top)
      ensures rectRight == radius * 2 && rectBottom == rectTop + radius * 2
    {
      timeItem := item;
      value := item.flag;
      backgroundColor := if item.backgroundColor == 0 then White else item.backgroundColor;
      this.radius := radius;
      this.top := top;
      this.timePosition := timePosition;
      currentPosition := 0;
      isSelected := timePosition == playheadPosition;
      isShowing := false;
      isDeleting := false;
      isMoving := false;
      rectLeft := 0;
      rectTop := TruncToInt(top);
      rectRight := radius * 2;
      rectBottom := TruncToInt(top) + radius * 2;
    }

    /** `refreshRect`: rebuild the hit rectangle around the screen position. */
    method RefreshRect()
      modifies this`rectLeft, this`rectTop, this`rectRight, this`rectBottom
      ensures RectFresh()
    {
      rectLeft := currentPosition - radius;
      rectTop := TruncToInt(top);
      rectRight := rectLeft + radius * 2;
      rectBottom := rectTop + radius * 2;
    }

    /** `isTouched`: the touch point lies in the hit rectangle (top edge excluded). */
    predicate IsTouched(x: int, y: int)
      reads this`rectLeft, this`rectTop, this`rectRight, this`rectBottom
    {
      rectLeft <= x <= rectRight && rectTop < y <= rectBottom
    }

    /**
     * Once the rectangle is fresh, a touch hits the item exactly when it is within
     * radius of the screen position horizontally and within the circle's height
     * below its top.
     */
    lemma TouchedWithinRadius(x: int, y: int)
      requires RectFresh()
      ensures IsTouched(x, y) <==>
        (-radius <= x - currentPosition <= radius && TruncToInt(top) < y <= TruncToInt(top) + 2 * radius)
    {
    }

    /**
     * `moveTo`: jump to a timeline position.  The position changes at once,
     * whether or not the move is animated (`animate` only drives the drawing).
     */
    method MoveTo(position: int, animate: bool)
      modifies this`timePosition, this`isMoving
      ensures timePosition == position && isMoving
    {
      isMoving := true;
      timePosition := position;
    }

    /** `moveToNext`: one segment later; the item is no longer drawn as selected. */
    method MoveToNext(animate: bool)
      modifies this`timePosition, this`isMoving, this`isSelected
      ensures timePosition == old(timePosition) + SegmentWidth
      ensures OnTick(old(timePosition)) ==> OnTick(timePosition)
      ensures isMoving && !isSelected
    {
      MoveTo(timePosition + SegmentWidth, animate);
      isSelected := false;
    }

    /** `moveToPrevious`: one segment earlier. */
    method MoveToPrevious(animate: bool)
      modifies this`timePosition, this`isMoving
      ensures timePosition == old(timePosition) - SegmentWidth
      ensures OnTick(old(timePosition)) ==> OnTick(timePosition)
      ensures isMoving
    {
      MoveTo(timePosition - SegmentWidth, animate);
    }

    /** `show`: start the fade-in at the current screen position. */
    method Show(currentLeft: real)
      modifies this`isShowing, this`currentPosition,
               this`rectLeft, this`rectTop, this`rectRight, this`rectBottom
      ensures isShowing
      ensures currentPosition == TruncToInt(timePosition as real - currentLeft) && RectFresh()
    {
      isShowing := true;
      currentPosition := TruncToInt(timePosition as real - currentLeft);
      RefreshRect();
    }

    /**
     * The fade-in has ended (the draw after the show animation stopped): the
     * item follows the scroll offset, is selected when on the playhead's
     * position, and the ruler is told next (`onFinishShow`).
     */
    method FinishShow(currentLeft: real, playheadPosition: int)
      modifies this`isShowing, this`currentPosition, this`isSelected,
               this`rectLeft, this`rectTop, this`rectRight, this`rectBottom
      ensures !isShowing
      ensures isSelected <==> timePosition == playheadPosition
      ensures currentPosition == TruncToInt(timePosition as real - currentLeft) && RectFresh()
    {
      currentPosition := TruncToInt(timePosition as real - currentLeft);
      RefreshRect();
      isSelected := timePosition == playheadPosition;
      isShowing := false;
    }

    /** `delete`: start the fade-out. */
    method Delete()
      modifies this`isDeleting
      ensures isDeleting
    {
      isDeleting := true;
    }

    /** The fade-out has ended; the ruler is told next (`onDeleted`). */
    method FinishDelete()
      modifies this`isDeleting
      ensures !isDeleting
    {
      isDeleting := false;
    }

    /** The move animation has ended: the item is drawn at its timeline position again. */
    method FinishMove(currentLeft: real, playheadPosition: int)
      modifies this`isMoving, this`currentPosition, this`isSelected,
               this`rectLeft, this`rectTop, this`rectRight, this`rectBottom
      ensures !isMoving
      ensures currentPosition == TruncToInt(timePosition as real - currentLeft) && RectFresh()
      ensures isSelected <==> timePosition == playheadPosition
    {
      isMoving := false;
      RefreshPosAndDraw(currentLeft, playheadPosition);
    }

    /**
     * `refreshPosAndDraw`: follow the scroll offset, and be selected exactly when
     * on the same position as the playhead.
     */
    method RefreshPosAndDraw(currentLeft: real, playheadPosition: int)
      modifies this`currentPosition, this`isSelected,
               this`rectLeft, this`rectTop, this`rectRight, this`rectBottom
      ensures currentPosition == TruncToInt(timePosition as real - currentLeft) && RectFresh()
      ensures isSelected <==> timePosition == playheadPosition
    {
      currentPosition := TruncToInt(timePosition as real - currentLeft);
      isSelected := timePosition == playheadPosition;
      RefreshRect();
    }
  }
}
