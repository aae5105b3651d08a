/**
 * The A-B range selector: two markers on the ruler.  B can only be set once A
 * is set; A is kept at or before B, B at or after A, and both at or before the
 * last timeline item.
 */
module RangeIndicators {
  import opened RulerScale
  import opened TimeIndicators

  /**
   * `calcPosition(position, maxPosition)`: a target screen position left of tick
   * 0's position is moved there; otherwise it is capped at maxPosition.
   */
  function CalcMarkerPosition(s: Scale, position: real, maxPosition: real): (r: real)
    ensures position < s.begin ==> r == s.begin
    ensures position >= s.begin ==> r <= position && r <= maxPosition && (r == position || r == maxPosition)
  {
    if position < s.begin then s.begin
    else if maxPosition > position then position else maxPosition
  }

  /**
   * `getRulerTimeItemsMaxPosition`: the screen position of the last timeline
   * item, computed from that item's cached time.
   */
  function MaxItemPosition(v: Viewport, lastItemTime: int): real
    requires v.Valid()
  {
    CalcPosition(v.scale, lastItemTime) - v.currentLeft
  }

  /** A time that can be the time of a timeline item: aligned and on the ruler. */
  predicate OnRuler(v: Viewport, t: int)
    requires v.Valid()
  {
    t >= 0 && t % Quantum == 0 && CalcPosition(v.scale, t) <= v.scale.LastPosition()
  }

  class RangeIndicator {
    const markerA: TimeIndicator
    const markerB: TimeIndicator
    var isTouchedA: bool
    var isTouchedB: bool
    var isDragging: bool
    var isIndicatorAVisible: bool
    var isIndicatorBVisible: bool

    /** Two distinct markers, and B is never shown without A. */
    ghost predicate Valid()
      reads this`isIndicatorAVisible, this`isIndicatorBVisible, markerA`time, markerB`time
    {
      markerA != markerB && markerA.Valid() && markerB.Valid()
      && (isIndicatorBVisible ==> isIndicatorAVisible)
    }

    constructor (s: Scale)
      ensures Valid() && fresh(markerA) && fresh(markerB)
      ensures markerA.realPosition == s.begin && markerB.realPosition == s.begin
      ensures markerA.time == 0 && markerB.time == 0
      ensures !isIndicatorAVisible && !isIndicatorBVisible
      ensures !isTouchedA && !isTouchedB && !isDragging
    {
      markerA := new TimeIndicator(s);
      markerB := new TimeIndicator(s);
      isTouchedA := false;
      isTouchedB := false;
      isDragging := false;
      isIndicatorAVisible := false;
      isIndicatorBVisible := false;
    }

    /** `getIndicatorAPosition`: A's position on the screen. */
    function GetIndicatorAPosition(currentLeft: real): real
      reads this, markerA
    {
      markerA.realPosition - currentLeft
    }

    /** `getIndicatorBPosition`: B's position on the screen. */
    function GetIndicatorBPosition(currentLeft: real): real
      reads this, markerB
    {
      markerB.realPosition - currentLeft
    }

    /** Where `updateIndicatorAPosition` sends A: at most B when B is set, else at most the last item. */
    function ATarget(v: Viewport, position: real, lastItemTime: int): real
      requires v.Valid()
      reads this, markerB
    {
      if isIndicatorBVisible then CalcMarkerPosition(v.scale, position, GetIndicatorBPosition(v.currentLeft))
      else
        var maxPosition := MaxItemPosition(v, lastItemTime);
        if maxPosition > position then position else maxPosition
    }

    /** Where `updateIndicatorBPosition` sends B: onto A when not after A, else at most the last item. */
    function BTarget(v: Viewport, position: real, lastItemTime: int): real
      requires v.Valid()
      reads this, markerA
    {
      var indicatorAPosition := GetIndicatorAPosition(v.currentLeft);
      if position > indicatorAPosition then
        var maxPosition := MaxItemPosition(v, lastItemTime);
        if maxPosition > position then position else maxPosition
      else indicatorAPosition
    }

    /** `setATime`: show A at a real position. */
    method SetATime(s: Scale, position: real)
      requires Valid()
      modifies this`isIndicatorAVisible, markerA`realPosition, markerA`time
      ensures Valid() && isIndicatorAVisible
      ensures markerA.realPosition == position && markerA.time == CalcTimeMillisecond(s, position, true)
    {
      isIndicatorAVisible := true;
      markerA.SetRealPosition(s, position);
    }

    /** `setBTime`: show B at a real position, ignored unless A is shown. */
    method SetBTime(s: Scale, position: real)
      requires Valid()
      modifies this`isIndicatorBVisible, markerB`realPosition, markerB`time
      ensures Valid()
      ensures old(isIndicatorAVisible) ==>
        (isIndicatorBVisible && markerB.realPosition == position
         && markerB.time == CalcTimeMillisecond(s, position, true))
      ensures !old(isIndicatorAVisible) ==>
        (!isIndicatorBVisible && markerB.realPosition == old(markerB.realPosition)
         && markerB.time == old(markerB.time))
    {
      if !isIndicatorAVisible {
        return;
      }
      isIndicatorBVisible := true;
      markerB.SetRealPosition(s, position);
    }

    /** `reset`: hide both markers and put both on tick 0. */
    method Reset(s: Scale)
      requires Valid()
      modifies this`isIndicatorAVisible, this`isIndicatorBVisible
      modifies markerA`realPosition, markerA`time, markerB`realPosition, markerB`time
      ensures Valid() && !isIndicatorAVisible && !isIndicatorBVisible
      ensures markerA.realPosition == s.begin && markerB.realPosition == s.begin
      ensures markerA.time == 0 && markerB.time == 0
    {
      markerA.SetRealPosition(s, s.begin);
      markerB.SetRealPosition(s, s.begin);
      ElapsedAtBegin(s);
      CalcOfWholeMilliseconds(s, s.begin, true, 0);
      isIndicatorAVisible := false;
      isIndicatorBVisible := false;
    }

    /** `refreshPosition`: both markers keep their times under a new scale. */
    method RefreshPosition(s: Scale)
      requires Valid() && s.timeOfPerPixel > 0.0
      modifies markerA`realPosition, markerB`realPosition
      ensures Valid()
      ensures markerA.realPosition == CalcPosition(s, markerA.time)
      ensures markerB.realPosition == CalcPosition(s, markerB.time)
    {
      markerA.RefreshPosition(s);
      markerB.RefreshPosition(s);
    }

    /**
     * `isTouched`, given whether the touch hits each marker (`hitA`, `hitB`).
     * With only A shown, only A is tried.  With A and B on the same spot, B is
     * tried first unless they sit on the last item; otherwise A is tried first.
     * The marker that is hit first is remembered as touched.
     */
    method IsTouched(s: Scale, itemCount: int, hitA: bool, hitB: bool) returns (touched: bool)
      requires Valid() && s.segmentWidth > 0.0
      modifies this`isTouchedA, this`isTouchedB
      ensures touched == (if isIndicatorAVisible && !isIndicatorBVisible then hitA else hitA || hitB)
      ensures var bFirst := isIndicatorBVisible && markerA.realPosition == markerB.realPosition
                           && CalcTimeIndex(s, markerA.realPosition, true) != itemCount - 1;
        var aOnly := isIndicatorAVisible && !isIndicatorBVisible;
        && (isTouchedA == (old(isTouchedA) || (hitA && (aOnly || !bFirst || !hitB))))
        && (isTouchedB == (old(isTouchedB) || (hitB && !aOnly && (bFirst || !hitA))))
    {
      if isIndicatorAVisible && !isIndicatorBVisible {
        touched := hitA;
        if hitA { isTouchedA := true; }
        return;
      }
      if isIndicatorBVisible && markerA.realPosition == markerB.realPosition
         && CalcTimeIndex(s, markerA.realPosition, true) != itemCount - 1 {
        if hitB { isTouchedB := true; touched := true; }
        else if hitA { isTouchedA := true; touched := true; }
        else { touched := false; }
        return;
      }
      if hitA { isTouchedA := true; touched := true; }
      else if hitB { isTouchedB := true; touched := true; }
      else { touched := false; }
    }

    /**
     * `updateIndicatorAPosition`: settle A at its clamped target.  With B shown
     * and settled on screen, A ends at or before B; without B, A ends at or
     * before the last item.  Returns whether the ruler was told.
     */
    method UpdateIndicatorAPosition(v: Viewport, position: real, lastItemTime: int) returns (notified: bool)
      requires Valid() && v.Valid()
      modifies markerA`realPosition, markerA`currentPosition, markerA`time, markerA`oldMillisecond
      ensures Valid()
      ensures markerA.time == SnappedTime(v, ATarget(v, position, lastItemTime))
      ensures markerA.realPosition == CalcPosition(v.scale, markerA.time)
      ensures notified <==> old(markerA.oldMillisecond) != markerA.time
      ensures isIndicatorBVisible && markerB.Settled(v.scale) && markerB.realPosition <= v.scale.LastPosition()
              && GetIndicatorBPosition(v.currentLeft) >= v.scale.begin
              ==> markerA.time <= markerB.time && markerA.realPosition <= markerB.realPosition
      ensures !isIndicatorBVisible && OnRuler(v, lastItemTime) ==> markerA.time <= lastItemTime
    {
      var target := ATarget(v, position, lastItemTime);
      notified := markerA.UpdatePosition(v, target);
      if isIndicatorBVisible && markerB.Settled(v.scale) && markerB.realPosition <= v.scale.LastPosition()
         && GetIndicatorBPosition(v.currentLeft) >= v.scale.begin {
        SnapFixedPoint(v, markerB.time);
        SnappedTimeMonotone(v, target, GetIndicatorBPosition(v.currentLeft));
        CalcPositionMonotone(v.scale, markerA.time, markerB.time);
      }
      if !isIndicatorBVisible && OnRuler(v, lastItemTime) {
        SnapFixedPoint(v, lastItemTime);
        SnappedTimeMonotone(v, target, MaxItemPosition(v, lastItemTime));
      }
    }

    /**
     * `updateIndicatorBPosition`: settle B at its clamped target.  With A settled
     * no later than the last item, B ends between A and the last item.
     */
    method UpdateIndicatorBPosition(v: Viewport, position: real, lastItemTime: int) returns (notified: bool)
      requires Valid() && v.Valid()
      modifies markerB`realPosition, markerB`currentPosition, markerB`time, markerB`oldMillisecond
      ensures Valid()
      ensures markerB.time == SnappedTime(v, BTarget(v, position, lastItemTime))
      ensures markerB.realPosition == CalcPosition(v.scale, markerB.time)
      ensures notified <==> old(markerB.oldMillisecond) != markerB.time
      ensures markerA.Settled(v.scale) && OnRuler(v, lastItemTime) && markerA.time <= lastItemTime
              ==> markerA.time <= markerB.time <= lastItemTime
    {
      var target := BTarget(v, position, lastItemTime);
      notified := markerB.UpdatePosition(v, target);
      if markerA.Settled(v.scale) && OnRuler(v, lastItemTime) && markerA.time <= lastItemTime {
        var aScreen, maxPosition := GetIndicatorAPosition(v.currentLeft), MaxItemPosition(v, lastItemTime);
        CalcPositionMonotone(v.scale, markerA.time, lastItemTime);
        assert aScreen <= maxPosition;
        assert aScreen <= target <= maxPosition;
        SnapFixedPoint(v, markerA.time);
        SnapFixedPoint(v, lastItemTime);
        SnappedTimeMonotone(v, aScreen, target);
        SnappedTimeMonotone(v, target, maxPosition);
      }
    }

    /**
     * `updatePosition`: settle whichever marker is being dragged, then forget the
     * touch, so that a second call without a new touch changes nothing.
     */
    method UpdatePosition(v: Viewport, position: real, lastItemTime: int) returns (notified: bool)
      requires Valid() && v.Valid()
      modifies this`isTouchedA, this`isTouchedB
      modifies markerA`realPosition, markerA`currentPosition, markerA`time, markerA`oldMillisecond,
               markerB`realPosition, markerB`currentPosition, markerB`time, markerB`oldMillisecond
      ensures Valid() && !isTouchedA && !isTouchedB
      ensures old(isTouchedA) ==> markerA.time == SnappedTime(v, old(ATarget(v, position, lastItemTime)))
      ensures old(isTouchedA) || !old(isTouchedB) ==> unchanged(markerB)
      ensures !old(isTouchedA) && old(isTouchedB) ==>
        markerB.time == SnappedTime(v, old(BTarget(v, position, lastItemTime))) && unchanged(markerA)
      ensures !old(isTouchedA) && !old(isTouchedB) ==> unchanged(markerA) && !notified
    {
      if isTouchedA {
        notified := UpdateIndicatorAPosition(v, position, lastItemTime);
      } else if isTouchedB {
        notified := UpdateIndicatorBPosition(v, position, lastItemTime);
      } else {
        notified := false;
      }
      isTouchedA := false;
      isTouchedB := false;
    }

    /**
     * `moveTo`: drag the touched marker with the same clamps: A no further than B
     * (or the last item), B no earlier than A and no further than the last item.
     */
    method MoveTo(v: Viewport, position: real, lastItemTime: int) returns (notified: bool)
      requires Valid() && v.Valid()
      modifies markerA`realPosition, markerA`currentPosition, markerA`time, markerA`oldMillisecond,
               markerB`realPosition, markerB`currentPosition, markerB`time, markerB`oldMillisecond
      ensures Valid()
      ensures isTouchedA ==>
        (unchanged(markerB)
         && markerA.currentPosition == CheckAndFixToRealPosition(v, CalcMarkerPosition(v.scale, position,
              if isIndicatorBVisible then GetIndicatorBPosition(v.currentLeft) else MaxItemPosition(v, lastItemTime)))
            - v.currentLeft)
      ensures !isTouchedA && isTouchedB ==>
        (unchanged(markerA)
         && markerB.currentPosition == CheckAndFixToRealPosition(v, BTarget(v, position, lastItemTime)) - v.currentLeft)
      ensures !isTouchedA && !isTouchedB ==> unchanged(markerA) && unchanged(markerB) && !notified
      ensures isTouchedA && isIndicatorBVisible && v.scale.begin <= markerB.realPosition <= v.scale.LastPosition()
              && GetIndicatorBPosition(v.currentLeft) >= v.scale.begin
              ==> markerA.currentPosition <= GetIndicatorBPosition(v.currentLeft)
    {
      notified := false;
      if isTouchedA {
        var limit := if isIndicatorBVisible then GetIndicatorBPosition(v.currentLeft) else MaxItemPosition(v, lastItemTime);
        var target := CalcMarkerPosition(v.scale, position, limit);
        notified := markerA.MoveTo(v, target);
        if isIndicatorBVisible && v.scale.begin <= markerB.realPosition <= v.scale.LastPosition()
           && GetIndicatorBPosition(v.currentLeft) >= v.scale.begin {
          CheckAndFixMonotone(v, target, limit);
          assert CheckAndFixToRealPosition(v, limit) == markerB.realPosition;
        }
      } else if isTouchedB {
        notified := markerB.MoveTo(v, BTarget(v, position, lastItemTime));
      }
    }

    /** `setDragging`: record the drag and mark the touched marker as dragged. */
    method SetDragging(dragging: bool)
      requires Valid()
      modifies this`isDragging, markerA`isDragging, markerB`isDragging
      ensures Valid() && isDragging == dragging
      ensures !dragging ==> !markerA.isDragging && !markerB.isDragging
      ensures dragging && isTouchedA ==> markerA.isDragging && markerB.isDragging == old(markerB.isDragging)
      ensures dragging && !isTouchedA && isTouchedB ==> markerB.isDragging && markerA.isDragging == old(markerA.isDragging)
      ensures dragging && !isTouchedA && !isTouchedB ==>
        markerA.isDragging == old(markerA.isDragging) && markerB.isDragging == old(markerB.isDragging)
    {
      isDragging := dragging;
      if !dragging {
        markerA.isDragging := false;
        markerB.isDragging := false;
      } else if isTouchedA {
        markerA.isDragging := true;
      } else if isTouchedB {
        markerB.isDragging := true;
      }
    }
  }
}
