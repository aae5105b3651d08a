/**
 * The A-B range selector of the integer-position ruler: two markers.  B can
 * only be set once A is set; when a marker is dropped, A is held at or before
 * B (or the last item when B is not set) and B between A and the last item.
 */
module LegacyRangeIndicators {
  import opened KotlinNumerics
  import opened LegacyScale
  import opened LegacyTimeIndicators

  /**
   * `calcPosition(position, maxPosition)`: a target screen position left of
   * the start offset is moved there; otherwise it is capped at maxPosition.
   */
  function CalcMarkerPosition(g: Geometry, position: real, maxPosition: real): (r: real)
    ensures position < g.startOffset as real ==> r == g.startOffset as real
    ensures position >= g.startOffset as real ==> r <= position && r <= maxPosition && (r == position || r == maxPosition)
  {
    if position < g.startOffset as real then g.startOffset as real
    else if maxPosition > position then position else maxPosition
  }

  /** The timeline position of the last of `itemCount` items, which sit one segment apart from 0. */
  function LastItemPosition(itemCount: int): (p: int)
    ensures itemCount >= 1 ==> p >= 0 && OnTick(p)
  {
    (itemCount - 1) * SegmentWidth
  }

  /**
   * `getRulerTimeItemsMaxPosition`: the screen position of the last item.  In
   * normal mode it is computed from the item count; in full mode from the
   * last item's timeline position, which the list must have (an empty list
   * makes the source index past its end).
   */
  function MaxItemPosition(v: View, itemCount: int, lastItemPosition: int): (r: real)
    requires v.Valid()
    requires v.fullMode ==> itemCount >= 1
    ensures !v.fullMode ==> r + v.currentLeft == LastItemPosition(itemCount) as real
    ensures v.fullMode && lastItemPosition >= 0 ==> r >= v.g.startOffset as real
  {
    if !v.fullMode then LastItemPosition(itemCount) as real - v.currentLeft
    else ConvertToFullModeTimePosition(v.g, lastItemPosition) + v.g.startOffset as real
  }

  class RangeIndicator {
    const markerA: TimeIndicator
    const markerB: TimeIndicator
    var isTouchedA: bool
    var isTouchedB: bool
    var isDragging: bool
    var isIndicatorAVisible: bool
    var isIndicatorBVisible: bool

    /** Two distinct markers, and B is never shown without A. */
    ghost predicate Valid()
      reads this`isIndicatorAVisible, this`isIndicatorBVisible
    {
      markerA != markerB && (isIndicatorBVisible ==> isIndicatorAVisible)
    }

    /**
     * Two new markers of the same size: A drawn left of its tick and B right of
     * it, each with its own touch area; neither is set yet.
     */
    constructor (rulerStartTop: real, width: int, height: int, shiftX: int, shiftY: int,
                 touchWidthA: int, touchWidthB: int, touchHeight: int)
      ensures Valid() && fresh(markerA) && fresh(markerB)
      ensures markerA.timePosition == 0 && markerB.timePosition == 0
      ensures markerA.timePositionInFullMode == 0.0 && markerB.timePositionInFullMode == 0.0
      ensures markerA.offsetX == -shiftX && markerB.offsetX == shiftX
      ensures markerA.offsetY == -shiftY && markerB.offsetY == -shiftY
      ensures markerA.isCustomTouchArea && markerA.customTouchWidth == touchWidthA && markerA.customTouchHeight == touchHeight
      ensures markerB.isCustomTouchArea && markerB.customTouchWidth == touchWidthB && markerB.customTouchHeight == touchHeight
      ensures !isIndicatorAVisible && !isIndicatorBVisible
      ensures !isTouchedA && !isTouchedB && !isDragging
    {
      markerA := new TimeIndicator(rulerStartTop, width, height, -shiftX, -shiftY);
      markerB := new TimeIndicator(rulerStartTop, width, height, shiftX, -shiftY);
      isTouchedA := false;
      isTouchedB := false;
      isDragging := false;
      isIndicatorAVisible := false;
      isIndicatorBVisible := false;
      new;
      markerA.SetTouchArea(touchWidthA, touchHeight);
      markerB.SetTouchArea(touchWidthB, touchHeight);
    }

    /** `getIndicatorAPosition`: A's position on the screen in the current mode. */
    function GetIndicatorAPosition(v: View): real
      reads markerA`timePosition, markerA`currentPositionInFullMode
    {
      if !v.fullMode then markerA.timePosition as real - v.currentLeft else markerA.currentPositionInFullMode
    }

    /** `getIndicatorBPosition`: B's position on the screen in the current mode. */
    function GetIndicatorBPosition(v: View): real
      reads markerB`timePosition, markerB`currentPositionInFullMode
    {
      if !v.fullMode then markerB.timePosition as real - v.currentLeft else markerB.currentPositionInFullMode
    }

    /** Where `updateIndicatorAPosition` sends A: at most B when B is set, else at most the last item. */
    function ATarget(v: View, position: real, itemCount: int, lastItemPosition: int): (r: real)
      requires v.Valid() && (v.fullMode ==> itemCount >= 1)
      reads this`isIndicatorBVisible, markerB`timePosition, markerB`currentPositionInFullMode
      ensures !v.fullMode && v.currentLeft >= 0.0 && v.currentLeft + position >= 0.0 && v.g.startOffset >= 0
              && (if isIndicatorBVisible then markerB.timePosition >= 0 else itemCount >= 1)
              ==> v.currentLeft + r >= 0.0
    {
      if isIndicatorBVisible then CalcMarkerPosition(v.g, position, GetIndicatorBPosition(v))
      else
        var maxPosition := MaxItemPosition(v, itemCount, lastItemPosition);
        if maxPosition > position then position else maxPosition
    }

    /** Where `updateIndicatorBPosition` sends B: onto A when not after A, else at most the last item. */
    function BTarget(v: View, position: real, itemCount: int, lastItemPosition: int): (r: real)
      requires v.Valid() && (v.fullMode ==> itemCount >= 1)
      reads markerA`timePosition, markerA`currentPositionInFullMode
      ensures !v.fullMode && markerA.timePosition >= 0 && itemCount >= 1 ==> v.currentLeft + r >= 0.0
    {
      var indicatorAPosition := GetIndicatorAPosition(v);
      if position > indicatorAPosition then
        var maxPosition := MaxItemPosition(v, itemCount, lastItemPosition);
        if maxPosition > position then position else maxPosition
      else indicatorAPosition
    }

    /**
     * `isTouched`: with only A shown, only A is tried.  With A and B on the same
     * position, B is tried first unless they sit on the last item; otherwise A is
     * tried first.  The marker hit first is remembered as touched.
     */
    method IsTouched(x: int, y: int, itemCount: int) returns (touched: bool)
      requires Valid()
      modifies this`isTouchedA, this`isTouchedB
      ensures Valid()
      ensures var hitA, hitB := markerA.IsTouched(x, y), markerB.IsTouched(x, y);
        touched == (if isIndicatorAVisible && !isIndicatorBVisible then hitA else hitA || hitB)
      ensures var hitA, hitB := markerA.IsTouched(x, y), markerB.IsTouched(x, y);
        var aOnly := isIndicatorAVisible && !isIndicatorBVisible;
        var bFirst := isIndicatorBVisible && markerA.timePosition == markerB.timePosition
                      && markerA.timePosition != LastItemPosition(itemCount);
        && (isTouchedA == (old(isTouchedA) || (hitA && (aOnly || !bFirst || !hitB))))
        && (isTouchedB == (old(isTouchedB) || (hitB && !aOnly && (bFirst || !hitA))))
    {
      var hitA, hitB := markerA.IsTouched(x, y), markerB.IsTouched(x, y);
      if isIndicatorAVisible && !isIndicatorBVisible {
        touched := hitA;
        if hitA { isTouchedA := true; }
        return;
      }
      if isIndicatorBVisible && markerA.timePosition == markerB.timePosition
         && markerA.timePosition != LastItemPosition(itemCount) {
        if hitB { isTouchedB := true; touched := true; }
        else if hitA { isTouchedA := true; touched := true; }
        else { touched := false; }
        return;
      }
      if hitA { isTouchedA := true; touched := true; }
      else if hitB { isTouchedB := true; touched := true; }
      else { touched := false; }
    }

    /**
     * `updateIndicatorAPosition`: settle A at its clamped target.  In normal mode,
     * with B set on a tick that is on screen, A ends at or before B; without B,
     * A ends at or before the last item.  The start-offset floor of the snap
     * can only break this when the start offset is more than half a segment
     * past the bound.  Returns whether the ruler was told.
     */
    method UpdateIndicatorAPosition(v: View, position: real, itemCount: int, lastItemPosition: int)
      returns (notified: bool)
      requires Valid() && v.Valid() && (v.fullMode ==> itemCount >= 1)
      modifies markerA`timePosition, markerA`currentPosition, markerA`oldTimePosition
      modifies markerA`timePositionInFullMode, markerA`currentPositionInFullMode, markerA`oldMillisecond
      modifies markerA`rectLeft, markerA`rectTop, markerA`rectRight, markerA`rectBottom
      ensures Valid()
      ensures !v.fullMode ==> markerA.timePosition == SettledTimePosition(v, old(ATarget(v, position, itemCount, lastItemPosition)))
      ensures v.fullMode ==> markerA.timePositionInFullMode == SnappedFullPosition(v.g, old(ATarget(v, position, itemCount, lastItemPosition)))
      ensures !v.fullMode ==> markerA.timePositionInFullMode == old(markerA.timePositionInFullMode)
      ensures v.fullMode ==> markerA.timePosition == old(markerA.timePosition)
      ensures v.fullMode ==> markerA.timePositionInFullMode >= 0.0 && OnFullGrid(v.g, markerA.timePositionInFullMode)
      ensures !v.fullMode ==> (notified <==> old(markerA.oldTimePosition) != markerA.timePosition)
      ensures v.fullMode ==> (notified <==> old(markerA.oldMillisecond) != markerA.oldMillisecond)
      ensures !v.fullMode && isIndicatorBVisible && OnTick(markerB.timePosition) && markerB.timePosition >= 0
              && GetIndicatorBPosition(v) >= v.g.startOffset as real
              && (v.currentLeft >= 0.0 || v.g.startOffset <= markerB.timePosition + SegmentWidth / 2)
              ==> markerA.timePosition <= markerB.timePosition
      ensures !v.fullMode && !isIndicatorBVisible && itemCount >= 1
              && (v.currentLeft >= 0.0 || v.g.startOffset <= LastItemPosition(itemCount) + SegmentWidth / 2)
              ==> markerA.timePosition <= LastItemPosition(itemCount)
    {
      var target := ATarget(v, position, itemCount, lastItemPosition);
      if !v.fullMode && isIndicatorBVisible && OnTick(markerB.timePosition) && markerB.timePosition >= 0
         && GetIndicatorBPosition(v) >= v.g.startOffset as real
         && (v.currentLeft >= 0.0 || v.g.startOffset <= markerB.timePosition + SegmentWidth / 2) {
        BoundedByTick(v, target, markerB.timePosition);
      }
      if !v.fullMode && !isIndicatorBVisible && itemCount >= 1
         && (v.currentLeft >= 0.0 || v.g.startOffset <= LastItemPosition(itemCount) + SegmentWidth / 2) {
        BoundedByTick(v, target, LastItemPosition(itemCount));
      }
      notified := markerA.UpdatePosition(v, target);
    }

    /**
     * `updateIndicatorBPosition`: settle B at its clamped target.  In normal mode,
     * with A on a tick no later than the last item, B ends between A and the
     * last item (the same start-offset proviso as for A).
     */
    method UpdateIndicatorBPosition(v: View, position: real, itemCount: int, lastItemPosition: int)
      returns (notified: bool)
      requires Valid() && v.Valid() && (v.fullMode ==> itemCount >= 1)
      modifies markerB`timePosition, markerB`currentPosition, markerB`oldTimePosition
      modifies markerB`timePositionInFullMode, markerB`currentPositionInFullMode, markerB`oldMillisecond
      modifies markerB`rectLeft, markerB`rectTop, markerB`rectRight, markerB`rectBottom
      ensures Valid()
      ensures !v.fullMode ==> markerB.timePosition == SettledTimePosition(v, old(BTarget(v, position, itemCount, lastItemPosition)))
      ensures v.fullMode ==> markerB.timePositionInFullMode == SnappedFullPosition(v.g, old(BTarget(v, position, itemCount, lastItemPosition)))
      ensures !v.fullMode ==> markerB.timePositionInFullMode == old(markerB.timePositionInFullMode)
      ensures v.fullMode ==> markerB.timePosition == old(markerB.timePosition)
      ensures v.fullMode ==> markerB.timePositionInFullMode >= 0.0 && OnFullGrid(v.g, markerB.timePositionInFullMode)
      ensures !v.fullMode ==> (notified <==> old(markerB.oldTimePosition) != markerB.timePosition)
      ensures v.fullMode ==> (notified <==> old(markerB.oldMillisecond) != markerB.oldMillisecond)
      ensures !v.fullMode && OnTick(markerA.timePosition) && 0 <= markerA.timePosition <= LastItemPosition(itemCount) <= SegmentMaxWidth
              && (v.currentLeft >= 0.0 || v.g.startOffset <= LastItemPosition(itemCount) + SegmentWidth / 2)
              ==> markerA.timePosition <= markerB.timePosition <= LastItemPosition(itemCount)
    {
      var target := BTarget(v, position, itemCount, lastItemPosition);
      if !v.fullMode && OnTick(markerA.timePosition) && 0 <= markerA.timePosition <= LastItemPosition(itemCount) <= SegmentMaxWidth
         && (v.currentLeft >= 0.0 || v.g.startOffset <= LastItemPosition(itemCount) + SegmentWidth / 2) {
        var last := LastItemPosition(itemCount);
        assert GetIndicatorAPosition(v) <= target <= MaxItemPosition(v, itemCount, lastItemPosition);
        BoundedByTick(v, target, last);
        BoundsTick(v, target, markerA.timePosition);
      }
      notified := markerB.UpdatePosition(v, target);
    }

    /**
     * `updatePosition`: settle whichever marker is being dragged, then forget the
     * touch, so that a second call without a new touch changes nothing.
     */
    method UpdatePosition(v: View, position: real, itemCount: int, lastItemPosition: int) returns (notified: bool)
      requires Valid() && v.Valid() && (v.fullMode ==> itemCount >= 1)
      modifies this`isTouchedA, this`isTouchedB
      modifies markerA`timePosition, markerA`currentPosition, markerA`oldTimePosition
      modifies markerA`timePositionInFullMode, markerA`currentPositionInFullMode, markerA`oldMillisecond
      modifies markerA`rectLeft, markerA`rectTop, markerA`rectRight, markerA`rectBottom
      modifies markerB`timePosition, markerB`currentPosition, markerB`oldTimePosition
      modifies markerB`timePositionInFullMode, markerB`currentPositionInFullMode, markerB`oldMillisecond
      modifies markerB`rectLeft, markerB`rectTop, markerB`rectRight, markerB`rectBottom
      ensures Valid() && !isTouchedA && !isTouchedB
      ensures old(isTouchedA) && !v.fullMode ==>
        markerA.timePosition == SettledTimePosition(v, old(ATarget(v, position, itemCount, lastItemPosition)))
      ensures old(isTouchedA) || !old(isTouchedB) ==> unchanged(markerB)
      ensures !old(isTouchedA) && old(isTouchedB) && !v.fullMode ==>
        markerB.timePosition == SettledTimePosition(v, old(BTarget(v, position, itemCount, lastItemPosition)))
      ensures !old(isTouchedA) ==> unchanged(markerA)
      ensures !old(isTouchedA) && !old(isTouchedB) ==> !notified
    {
      if isTouchedA {
        notified := UpdateIndicatorAPosition(v, position, itemCount, lastItemPosition);
      } else if isTouchedB {
        notified := UpdateIndicatorBPosition(v, position, itemCount, lastItemPosition);
      } else {
        notified := false;
      }
      isTouchedA := false;
      isTouchedB := false;
    }

    /**
     * `moveTo`: drag the touched marker with the same clamps: A no further than B
     * (or the last item), B no earlier than A and no further than the last item.
     */
    method MoveTo(v: View, position: real, itemCount: int, lastItemPosition: int) returns (notified: bool)
      requires Valid() && v.Valid() && (v.fullMode ==> itemCount >= 1)
      modifies markerA`currentPosition, markerA`timePositionInFullMode, markerA`currentPositionInFullMode
      modifies markerA`oldMillisecond, markerA`rectLeft, markerA`rectTop, markerA`rectRight, markerA`rectBottom
      modifies markerB`currentPosition, markerB`timePositionInFullMode, markerB`currentPositionInFullMode
      modifies markerB`oldMillisecond, markerB`rectLeft, markerB`rectTop, markerB`rectRight, markerB`rectBottom
      ensures Valid()
      ensures isTouchedA && !v.fullMode ==>
        markerA.currentPosition == DragPosition(v, CalcMarkerPosition(v.g, position,
          if isIndicatorBVisible then old(GetIndicatorBPosition(v)) else MaxItemPosition(v, itemCount, lastItemPosition)))
      ensures isTouchedA && v.fullMode ==>
        markerA.currentPositionInFullMode == ClampToFullRuler(v.g, CalcMarkerPosition(v.g, position,
          if isIndicatorBVisible then old(GetIndicatorBPosition(v)) else MaxItemPosition(v, itemCount, lastItemPosition)))
      ensures isTouchedA || !isTouchedB ==> unchanged(markerB)
      ensures !isTouchedA && isTouchedB && !v.fullMode ==>
        markerB.currentPosition == DragPosition(v, old(BTarget(v, position, itemCount, lastItemPosition)))
      ensures !isTouchedA && isTouchedB && v.fullMode ==>
        markerB.currentPositionInFullMode == ClampToFullRuler(v.g, old(BTarget(v, position, itemCount, lastItemPosition)))
      ensures !isTouchedA ==> unchanged(markerA)
      ensures !isTouchedA && !isTouchedB ==> !notified
    {
      notified := false;
      if isTouchedA {
        var limit := if isIndicatorBVisible then GetIndicatorBPosition(v) else MaxItemPosition(v, itemCount, lastItemPosition);
        notified := markerA.MoveTo(v, CalcMarkerPosition(v.g, position, limit));
      } else if isTouchedB {
        notified := markerB.MoveTo(v, BTarget(v, position, itemCount, lastItemPosition));
      }
    }

    /** `setDragging`: record the drag and mark the touched marker as dragged. */
    method SetDragging(dragging: bool)
      requires Valid()
      modifies this`isDragging, markerA`isDragging, markerB`isDragging
      ensures Valid() && isDragging == dragging
      ensures !dragging ==> !markerA.isDragging && !markerB.isDragging
      ensures dragging && isTouchedA ==> markerA.isDragging && markerB.isDragging == old(markerB.isDragging)
      ensures dragging && !isTouchedA && isTouchedB ==> markerB.isDragging && markerA.isDragging == old(markerA.isDragging)
      ensures dragging && !isTouchedA && !isTouchedB ==>
        markerA.isDragging == old(markerA.isDragging) && markerB.isDragging == old(markerB.isDragging)
    {
      isDragging := dragging;
      if !dragging {
        markerA.isDragging := false;
        markerB.isDragging := false;
      } else if isTouchedA {
        markerA.isDragging := true;
      } else if isTouchedB {
        markerB.isDragging := true;
      }
    }

    /**
     * `setATime`: show A at a timeline position (truncated to a whole pixel in
     * normal mode, kept as is in full mode).
     */
    method SetATime(fullMode: bool, position: real)
      requires Valid()
      modifies this`isIndicatorAVisible, markerA`timePosition, markerA`timePositionInFullMode
      ensures Valid() && isIndicatorAVisible
      ensures !fullMode ==> markerA.timePosition == TruncToInt(position) && markerA.timePositionInFullMode == old(markerA.timePositionInFullMode)
      ensures fullMode ==> markerA.timePositionInFullMode == position && markerA.timePosition == old(markerA.timePosition)
    {
      isIndicatorAVisible := true;
      if !fullMode {
        markerA.timePosition := TruncToInt(position);
      } else {
        markerA.timePositionInFullMode := position;
      }
    }

    /** `setBTime`: show B at a timeline position; ignored while A is not set. */
    method SetBTime(fullMode: bool, position: real)
      requires Valid()
      modifies this`isIndicatorBVisible, markerB`timePosition, markerB`timePositionInFullMode
      ensures Valid()
      ensures !old(isIndicatorAVisible) ==> unchanged(this, markerB)
      ensures old(isIndicatorAVisible) ==> isIndicatorBVisible
      ensures old(isIndicatorAVisible) && !fullMode ==>
        markerB.timePosition == TruncToInt(position) && markerB.timePositionInFullMode == old(markerB.timePositionInFullMode)
      ensures old(isIndicatorAVisible) && fullMode ==>
        markerB.timePositionInFullMode == position && markerB.timePosition == old(markerB.timePosition)
    {
      if !isIndicatorAVisible {
        return;
      }
      isIndicatorBVisible := true;
      if !fullMode {
        markerB.timePosition := TruncToInt(position);
      } else {
        markerB.timePositionInFullMode := position;
      }
    }

    /** `reset`: both markers back to position 0 and hidden (full-mode positions are kept). */
    method Reset()
      requires Valid()
      modifies this`isIndicatorAVisible, this`isIndicatorBVisible, markerA`timePosition, markerB`timePosition
      ensures Valid() && !isIndicatorAVisible && !isIndicatorBVisible
      ensures markerA.timePosition == 0 && markerB.timePosition == 0
    {
      markerA.timePosition := 0;
      markerB.timePosition := 0;
      isIndicatorAVisible := false;
      isIndicatorBVisible := false;
    }

    /** `setIndicatorATimePosition`: A's normal-mode position, and nothing else. */
    method SetIndicatorATimePosition(position: int)
      modifies markerA`timePosition
      ensures markerA.timePosition == position
    {
      markerA.timePosition := position;
    }

    /** `setIndicatorBTimePosition`: B's normal-mode position, and nothing else. */
    method SetIndicatorBTimePosition(position: int)
      modifies markerB`timePosition
      ensures markerB.timePosition == position
    {
      markerB.timePosition := position;
    }

    /** `setIndicatorATimePositionInFullMode`: A's full-mode position and its screen position. */
    method SetIndicatorATimePositionInFullMode(g: Geometry, position: real)
      modifies markerA`timePositionInFullMode, markerA`currentPositionInFullMode
      ensures markerA.timePositionInFullMode == position
      ensures markerA.currentPositionInFullMode == position + g.startOffset as real
    {
      markerA.timePositionInFullMode := position;
      markerA.currentPositionInFullMode := position + g.startOffset as real;
    }

    /**
     * `setIndicatorBTimePositionInFullMode` as written: B's full-mode position is
     * set, but the screen position written is A's.
     */
    method SetIndicatorBTimePositionInFullModeAsWritten(g: Geometry, position: real)
      requires Valid()
      modifies markerB`timePositionInFullMode, markerA`currentPositionInFullMode
      ensures markerB.timePositionInFullMode == position
      ensures markerA.currentPositionInFullMode == position + g.startOffset as real
      ensures markerB.currentPositionInFullMode == old(markerB.currentPositionInFullMode)
    {
      markerB.timePositionInFullMode := position;
      markerA.currentPositionInFullMode := position + g.startOffset as real;
    }

    /** `setIndicatorBTimePositionInFullMode` as intended, mirroring A's setter. */
    method SetIndicatorBTimePositionInFullMode(g: Geometry, position: real)
      requires Valid()
      modifies markerB`timePositionInFullMode, markerB`currentPositionInFullMode
      ensures markerB.timePositionInFullMode == position
      ensures markerB.currentPositionInFullMode == position + g.startOffset as real
      ensures markerA.currentPositionInFullMode == old(markerA.currentPositionInFullMode)
    {
      markerB.timePositionInFullMode := position;
      markerB.currentPositionInFullMode := position + g.startOffset as real;
    }

    /**
     * The position refresh of `onDrawInFullMode`: each shown marker that is not
     * dragged gets its screen position back from its timeline position.
     */
    method RefreshOnDrawInFullMode(g: Geometry)
      requires Valid()
      modifies markerA`currentPositionInFullMode, markerA`rectLeft, markerA`rectTop, markerA`rectRight, markerA`rectBottom
      modifies markerB`currentPositionInFullMode, markerB`rectLeft, markerB`rectTop, markerB`rectRight, markerB`rectBottom
      ensures isIndicatorAVisible && markerA.isVisible && !markerA.isDragging ==>
        markerA.currentPositionInFullMode == markerA.timePositionInFullMode + g.startOffset as real
      ensures isIndicatorBVisible && markerB.isVisible && !markerB.isDragging ==>
        markerB.currentPositionInFullMode == markerB.timePositionInFullMode + g.startOffset as real
      ensures !isIndicatorAVisible ==> unchanged(markerA)
      ensures !isIndicatorBVisible ==> unchanged(markerB)
    {
      if isIndicatorAVisible {
        markerA.RefreshOnDrawInFullMode(g);
      }
      if isIndicatorBVisible {
        markerB.RefreshOnDrawInFullMode(g);
      }
    }
  }

  /**
   * A target at or left of the screen position of a non-negative tick settles
   * at or before that tick, provided that, while the beginning is shown, the
   * start offset the snap is raised to is at most half a segment past the tick.
   */
  lemma BoundedByTick(v: View, target: real, t: int)
    requires v.Valid() && OnTick(t) && t >= 0
    requires target <= t as real - v.currentLeft
    requires v.currentLeft >= 0.0 || v.g.startOffset <= t + SegmentWidth / 2
    ensures SettledTimePosition(v, target) <= t
  {
    ClampedMonotone(v, target, t as real - v.currentLeft);
    ClampedOfTickScreen(v, t);
    NearestTickBelow(ClampedTimePosition(v, target), t);
  }

  /** A target at or right of the screen position of a tick on the ruler settles at or after that tick. */
  lemma BoundsTick(v: View, target: real, t: int)
    requires v.Valid() && OnTick(t) && 0 <= t <= SegmentMaxWidth
    requires t as real - v.currentLeft <= target
    ensures t <= SettledTimePosition(v, target)
  {
    ClampedMonotone(v, t as real - v.currentLeft, target);
    ClampedOfTickScreen(v, t);
    NearestTickMonotone(t, ClampedTimePosition(v, target));
    NearestTickOfTick(t);
  }
}
