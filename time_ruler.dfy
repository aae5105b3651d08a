/**
 * The time ruler: a scrollable ruler of 3000 ticks of 200 ms (normal mode), or
 * the same ten minutes squeezed into the screen (full mode), carrying a list of
 * timeline items, one per tick from tick 0 on, a playhead, an A-B range and a
 * player that walks the playhead over the items.
 *
 * The ruler is a state machine driven by calls (add, delete, play, ...), by
 * touches, and by the completion of animations and timer messages, which are
 * explicit methods here (`FinishShow`, `FinishDelete`, `PlayTick`, ...).  Every
 * listener callback is appended to `events`.
 */
module TimeRulers {
  import opened Wrappers
  import opened KotlinNumerics
  import opened RulerScale
  import opened TimeItems
  import opened TimeIndicators
  import opened CircleIndicators
  import opened RangeIndicators
  import opened RulerRules

  /** The add or delete whose animation is still running. */
  datatype Operation =
    | Idle
    | Showing(shown: CircleIndicator)                 // the new item fades in
    | Deleting(removed: CircleIndicator, index: int)  // the item fades out; it leaves the list afterwards

  /** The work the stepped player's handler has posted for 200 ms later. */
  datatype StepPost = NoStepPost | StopAfterLast | RepeatAfterLast

  /** The item objects' timeline items, in order (`getTimeItems`). */
  function TimeItemsOf(cs: seq<CircleIndicator>): (ts: seq<TimeItem>)
    ensures |ts| == |cs| && forall i | 0 <= i < |cs| :: ts[i] == cs[i].timeItem
  {
    seq(|cs|, i requires 0 <= i < |cs| => cs[i].timeItem)
  }

  class TimeRuler {
    const layout: Layout
    /** The scale of normal mode, in which items are added, deleted and timed. */
    const normalScale: Scale
    /** Half the screen width: the player keeps the playhead there. */
    const screenCenterPosition: int
    const circleRadius: int
    const circleTop: real
    const timeIndicator: TimeIndicator
    const playIndicator: TimeIndicator
    const rangeIndicator: RangeIndicator

    var isFullMode: bool
    /** The scale of the current mode. */
    var scale: Scale
    var currentLeft: real
    /** The scroll offset saved when switching to full mode. */
    var oldCurrentLeft: real
    var currentLeftIndex: int
    /** The playhead moved since the last mode switch. */
    var isTimeChanged: bool

    /** `timeItemList`. */
    var items: seq<CircleIndicator>
    var isOperating: bool
    var operation: Operation
    /** The tick index of the previous touch, for the two-tap click rule. */
    var latestTimeIndex: int

    var isPlaying: bool
    var isRepeatPlay: bool
    var isCancel: bool
    var isNeedResetPlayIndicator: bool
    var isNeedToPlay: bool
    var isCalledStart: bool
    var isAnimatorEnable: bool
    var startPlayTimePosition: real
    var startPlayRealPosition: int
    var startPlayTimeIndex: int
    var stopPlayTimeIndex: int
    var startPlayTimePositionInFullMode: real
    var startPlayTimePositionInFullModeIndex: int
    var endPlayTimePositionInFullMode: real
    var endPlayTimePositionInFullModeIndex: int

    /** A message is queued for the stepped player (`playHandler`). */
    var tickQueued: bool
    var stepPost: StepPost
    /** A message is queued for the full-mode player (`playInFullModeHandler`). */
    var fullTickQueued: bool
    /** The scroll offset the centring animation is heading for, while it runs. */
    var centering: Option<real>
    /** `preparePlay` calls posted by the end of the centring animation. */
    var preparePosts: nat
    /** The play animation runs, from `animFrom` to `animTo`. */
    var playAnimating: bool
    var animFrom: int
    var animTo: int
    /** Posts made by the end of an uncancelled play animation. */
    var animEndPosts: nat
    /** The corrective animation after a cancel is posted, towards `fixTo`. */
    var fixPosted: bool
    var fixTo: int

    /** Every listener callback so far, oldest first. */
    var events: seq<Event>
    /** Where `isCalledStart` was last cleared in the callback log. */
    ghost var startMark: nat

    /** The ruler's objects: its own, its indicators' and its items'. */
    ghost predicate Valid()
      reads this`scale, this`isFullMode, this`isOperating, this`operation, this`items
      reads this`startMark, this`events, this`isCalledStart
      reads timeIndicator`time, playIndicator`time, rangeIndicator`isIndicatorAVisible, rangeIndicator`isIndicatorBVisible, rangeIndicator.markerA`time, rangeIndicator.markerB`time
      reads items`realPosition, items`time
    {
      LayoutValid() && IndicatorsValid() && ItemsValid() && StartsCounted()
    }

    /** The scale matches the mode; an add or delete runs only in normal mode. */
    ghost predicate LayoutValid()
      reads this`scale, this`isFullMode, this`isOperating, this`operation
    {
      && layout.paddingLeft >= 0 && layout.paddingRight >= 0 && layout.FitsFullMode()
      && normalScale == InitScale(layout, false)
      && scale == InitScale(layout, isFullMode)
      && (isOperating <==> !operation.Idle?)
      && (isFullMode ==> !isOperating)
    }

    /** The four indicators are distinct objects, each valid. */
    ghost predicate IndicatorsValid()
      reads timeIndicator`time, playIndicator`time, rangeIndicator`isIndicatorAVisible, rangeIndicator`isIndicatorBVisible, rangeIndicator.markerA`time, rangeIndicator.markerB`time
    {
      && timeIndicator != playIndicator
      && timeIndicator != rangeIndicator.markerA && timeIndicator != rangeIndicator.markerB
      && playIndicator != rangeIndicator.markerA && playIndicator != rangeIndicator.markerB
      && timeIndicator.Valid() && playIndicator.Valid() && rangeIndicator.Valid()
    }

    /** The items are distinct, each timed by its position, none right of its tick. */
    ghost predicate ItemsValid()
      reads this`items, this`operation, items`realPosition, items`time
    {
      && Distinct(items)
      && AllTimed(normalScale, items)
      && normalScale.segmentWidth > 0.0
      && BelowTicks(normalScale, Positions(), Hole())
      && (operation.Showing? ==> operation.shown in items)
      && (operation.Deleting? ==> 0 <= operation.index < |items| && items[operation.index] == operation.removed)
    }

    /** Since `isCalledStart` was last cleared, `onStart` fired once exactly when it is set. */
    ghost predicate StartsCounted()
      reads this`startMark, this`events, this`isCalledStart
    {
      && startMark <= |events|
      && CountStarts(events[startMark..]) == (if isCalledStart then 1 else 0)
    }

    /** The items' real positions, in list order. */
    ghost function Positions(): seq<real>
      reads this`items, items`realPosition
    {
      PositionsOf(items)
    }

    /** The index of the item that is fading out, or -1. */
    function Hole(): int
      reads this`operation
    {
      if operation.Deleting? then operation.index else -1
    }

    /** Item i sits on tick i, for every item. */
    ghost predicate OnGrid()
      reads this`items, items`realPosition
    {
      OnTicks(normalScale, Positions())
    }

    /** The playhead sits on a tick. */
    ghost predicate PlayheadOnTick()
      reads timeIndicator
    {
      normalScale.segmentWidth > 0.0
      && timeIndicator.realPosition == TickPosition(normalScale, CalcTimeIndex(normalScale, timeIndicator.realPosition, true))
    }

    /** What the indicators read from the ruler. */
    function View(): (v: Viewport)
      reads this`scale, this`currentLeft, this`isFullMode
      ensures v.scale == scale && v.currentLeft == currentLeft && v.fullMode == isFullMode
    {
      Viewport(scale, currentLeft, isFullMode)
    }

    /** The timeline items in list order. */
    function TimeItems(): seq<TimeItem>
      reads this`items
    {
      TimeItemsOf(items)
    }

    /**
     * A ruler in normal mode at scroll offset 0, without items, with the
     * playhead on tick 0 and no range.
     */
    constructor (layout: Layout, circleRadius: int, circleTop: real)
      requires layout.paddingLeft >= 0 && layout.paddingRight >= 0 && layout.FitsFullMode()
      ensures Valid() && OnGrid() && PlayheadOnTick()
      ensures !isFullMode && scale == normalScale && currentLeft == 0.0 && currentLeftIndex == 0
      ensures items == [] && !isOperating && !isPlaying && events == []
      ensures timeIndicator.realPosition == scale.begin && timeIndicator.time == 0
      ensures !rangeIndicator.isIndicatorAVisible && !rangeIndicator.isIndicatorBVisible
    {
      var s := InitScale(layout, false);
      this.layout := layout;
      normalScale := s;
      screenCenterPosition := KDiv(layout.screenWidth, 2);
      this.circleRadius := circleRadius;
      this.circleTop := circleTop;
      var t := new TimeIndicator(s);
      var p := new TimeIndicator(s);
      var r := new RangeIndicator(s);
      timeIndicator := t;
      playIndicator := p;
      rangeIndicator := r;
      isFullMode := false;
      scale := s;
      currentLeft := 0.0;
      oldCurrentLeft := 0.0;
      currentLeftIndex := 0;
      isTimeChanged := false;
      items := [];
      isOperating := false;
      operation := Idle;
      latestTimeIndex := 0;
      isPlaying := false;
      isRepeatPlay := false;
      isCancel := false;
      isNeedResetPlayIndicator := false;
      isNeedToPlay := false;
      isCalledStart := false;
      isAnimatorEnable := true;
      startPlayTimePosition := 0.0;
      startPlayRealPosition := 0;
      startPlayTimeIndex := 0;
      stopPlayTimeIndex := 0;
      startPlayTimePositionInFullMode := 0.0;
      startPlayTimePositionInFullModeIndex := 0;
      endPlayTimePositionInFullMode := 0.0;
      endPlayTimePositionInFullModeIndex := 0;
      tickQueued := false;
      stepPost := NoStepPost;
      fullTickQueued := false;
      centering := None;
      preparePosts := 0;
      playAnimating := false;
      animFrom := 0;
      animTo := 0;
      animEndPosts := 0;
      fixPosted := false;
      fixTo := 0;
      events := [];
      startMark := 0;
      new;
      TickIndexOfTickPosition(s, 0, true);
    }

    /** Append callbacks other than `onStart` to the log. */
    method Emit(es: seq<Event>)
      requires Valid()
      requires forall i | 0 <= i < |es| :: !es[i].PlayStarted?
      modifies this`events
      ensures Valid() && events == old(events) + es
    {
      assert (events + es)[startMark..] == events[startMark..] + es;
      CountStartsWithout(events[startMark..], es);
      events := events + es;
    }

    /**
     * `computeTime`: clamp the scroll offset to [0, viewWidth - screenWidth] and
     * recompute the tick at the left edge of the screen.
     */
    method ComputeTime()
      requires Valid()
      modifies this`currentLeft, this`currentLeftIndex
      ensures Valid()
      ensures currentLeft == ClampLeft(old(currentLeft), scale.ViewWidth() - layout.screenWidth as real)
      ensures scale.ViewWidth() >= layout.screenWidth as real ==>
        0.0 <= currentLeft <= scale.ViewWidth() - layout.screenWidth as real
      ensures currentLeftIndex == CalcTimeIndex(scale, currentLeft, false)
      ensures currentLeft >= scale.begin ==>
        TickPosition(scale, currentLeftIndex) <= currentLeft < TickPosition(scale, currentLeftIndex + 1)
    {
      var left := currentLeft;
      if left < 0.0 {
        left := 0.0;
      }
      if left > scale.ViewWidth() - layout.screenWidth as real {
        left := scale.ViewWidth() - layout.screenWidth as real;
      }
      currentLeft := left;
      currentLeftIndex := if currentLeft < scale.begin then 0
        else TruncToInt((currentLeft - scale.begin) / scale.segmentWidth);
      if currentLeft >= scale.begin {
        LeftEdgeTick(scale, currentLeft);
      }
    }

    /**
     * The playhead's listener (`onPositionChanged`): the time of the new
     * position, truncated to 200 ms, with the item on that tick if any.
     */
    method NotifyPlayheadChanged()
      requires Valid() && timeIndicator.realPosition >= scale.begin
      modifies this`isTimeChanged, this`events
      ensures Valid() && isTimeChanged
      ensures events == old(events)
        + PositionChangedEvents(CalcTimeMillisecond(scale, timeIndicator.realPosition, false), TimeItems())
    {
      isTimeChanged := true;
      var millisecond := CalcTimeMillisecond(scale, timeIndicator.realPosition, false);
      Emit(PositionChangedEvents(millisecond, TimeItems()));
    }

    /** `timeIndicator.updatePosition(position)` followed by its listener, when it fires. */
    method UpdatePlayhead(position: real) returns (notified: bool)
      requires Valid()
      modifies this`isTimeChanged, this`events
      modifies timeIndicator`realPosition, timeIndicator`currentPosition, timeIndicator`time, timeIndicator`oldMillisecond
      ensures Valid()
      ensures timeIndicator.time == SnappedTime(View(), position)
      ensures timeIndicator.realPosition == CalcPosition(scale, timeIndicator.time)
      ensures notified <==> old(timeIndicator.oldMillisecond) != timeIndicator.time
      ensures notified ==> events == old(events) + PositionChangedEvents(timeIndicator.time, TimeItems())
      ensures !notified ==> events == old(events) && isTimeChanged == old(isTimeChanged)
    {
      notified := timeIndicator.UpdatePosition(View(), position);
      if notified {
        CalcRoundTrip(scale, timeIndicator.time, false);
        NotifyPlayheadChanged();
      }
    }

    /**
     * The range's listener: once a marker moved, a playhead left of A is pulled
     * onto A, or else a playhead right of B is pulled onto B.
     */
    method OnRangeChanged()
      requires Valid()
      modifies this`isTimeChanged, this`events
      modifies timeIndicator`realPosition, timeIndicator`currentPosition, timeIndicator`time, timeIndicator`oldMillisecond
      ensures Valid()
      ensures var a, b := rangeIndicator.markerA, rangeIndicator.markerB;
        if rangeIndicator.isIndicatorAVisible && old(timeIndicator.realPosition) < a.realPosition then
          timeIndicator.time == SnappedTime(View(), a.realPosition - currentLeft)
        else if rangeIndicator.isIndicatorBVisible && old(timeIndicator.realPosition) > b.realPosition then
          timeIndicator.time == SnappedTime(View(), b.realPosition - currentLeft)
        else
          unchanged(timeIndicator) && events == old(events)
    {
      var a, b := rangeIndicator.markerA, rangeIndicator.markerB;
      if rangeIndicator.isIndicatorAVisible && timeIndicator.realPosition < a.realPosition {
        var _ := UpdatePlayhead(a.realPosition - currentLeft);
      } else if rangeIndicator.isIndicatorBVisible && timeIndicator.realPosition > b.realPosition {
        var _ := UpdatePlayhead(b.realPosition - currentLeft);
      }
    }

    /**
     * `moveTimeIndicatorToCenter`, once its animations have ended: past the
     * screen centre the ruler scrolls so that the next tick sits one segment
     * right of the centre and the playhead steps to that tick, unless it is on
     * the last tick; before the centre the playhead steps one tick on.
     */
    method MoveTimeIndicatorToCenter()
      requires Valid() && !isFullMode
      modifies this`currentLeft, this`currentLeftIndex, this`isTimeChanged, this`events
      modifies timeIndicator`realPosition, timeIndicator`currentPosition, timeIndicator`time, timeIndicator`oldMillisecond
      ensures Valid()
      ensures old(timeIndicator.realPosition) >= screenCenterPosition as real ==>
        currentLeft == ClampLeft(old(timeIndicator.realPosition) + scale.segmentWidth - screenCenterPosition as real,
                                 scale.ViewWidth() - layout.screenWidth as real)
      ensures old(timeIndicator.realPosition) < screenCenterPosition as real ==> currentLeft == old(currentLeft)
      ensures var k := old(CalcTimeIndex(scale, timeIndicator.realPosition, true));
        old(PlayheadOnTick()) && k < scale.totalSegmentCount ==>
          timeIndicator.realPosition == TickPosition(scale, k + 1) && timeIndicator.time == (k + 1) * Quantum
    {
      if timeIndicator.realPosition >= screenCenterPosition as real {
        currentLeft := timeIndicator.realPosition + scale.segmentWidth - screenCenterPosition as real;
        ComputeTime();
        StepPlayheadWithScroll();
      } else {
        StepPlayhead();
      }
    }

    /**
     * The playhead's step while the ruler scrolls: moved one whole segment
     * without snapping, then snapped; nothing moves on the last tick.
     */
    method StepPlayheadWithScroll()
      requires Valid() && !isFullMode
      modifies this`isTimeChanged, this`events
      modifies timeIndicator`realPosition, timeIndicator`currentPosition, timeIndicator`time, timeIndicator`oldMillisecond
      ensures Valid()
      ensures var k := old(CalcTimeIndex(scale, timeIndicator.realPosition, true));
        && (k == scale.totalSegmentCount ==> unchanged(timeIndicator) && events == old(events))
        && (old(PlayheadOnTick()) && k < scale.totalSegmentCount ==>
              timeIndicator.realPosition == TickPosition(scale, k + 1) && timeIndicator.time == (k + 1) * Quantum)
    {
      var k := CalcTimeIndex(scale, timeIndicator.realPosition, true);
      ghost var onTick := PlayheadOnTick();
      if k != scale.totalSegmentCount {
        var p := timeIndicator.realPosition;
        WholeNumbersFixed(100);
        var q := p + TruncToInt(scale.segmentWidth) as real;
        if onTick && k < scale.totalSegmentCount {
          StepToNextTick(View(), p, k);
          assert q - currentLeft == p - currentLeft + scale.segmentWidth;
        }
        JumpPlayhead(q);
      }
    }

    /** The playhead is put at real position q, then settled there (`updatePosition`). */
    method JumpPlayhead(q: real)
      requires Valid()
      modifies this`isTimeChanged, this`events
      modifies timeIndicator`realPosition, timeIndicator`currentPosition, timeIndicator`time, timeIndicator`oldMillisecond
      ensures Valid()
      ensures timeIndicator.time == SnappedTime(View(), q - currentLeft)
      ensures timeIndicator.realPosition == CalcPosition(scale, timeIndicator.time)
    {
      timeIndicator.SetRealPosition(scale, q);
      var _ := UpdatePlayhead(q - currentLeft);
    }

    /** The playhead's step before the screen centre: one segment later, snapped. */
    method StepPlayhead()
      requires Valid() && !isFullMode
      modifies this`isTimeChanged, this`events
      modifies timeIndicator`realPosition, timeIndicator`currentPosition, timeIndicator`time, timeIndicator`oldMillisecond
      ensures Valid()
      ensures timeIndicator.time == SnappedTime(View(), old(timeIndicator.realPosition) - currentLeft + scale.segmentWidth)
      ensures var k := old(CalcTimeIndex(scale, timeIndicator.realPosition, true));
        old(PlayheadOnTick()) && k < scale.totalSegmentCount ==>
          timeIndicator.realPosition == TickPosition(scale, k + 1) && timeIndicator.time == (k + 1) * Quantum
    {
      var p := timeIndicator.realPosition;
      var k := CalcTimeIndex(scale, p, true);
      if PlayheadOnTick() && k < scale.totalSegmentCount {
        StepToNextTick(View(), p, k);
      }
      var _ := UpdatePlayhead(p - currentLeft + scale.segmentWidth);
    }

    /**
     * `addTimeItem`'s append branch: the ticks from the end of the list up to
     * tick k - 1 get empty items on their ticks, then the new item is appended.
     */
    method AppendPadded(c: CircleIndicator, k: int)
      requires ItemsValid() && operation.Idle? && |items| <= k
      requires c !in items && c.TimeMatches(normalScale) && CalcTimeIndex(normalScale, c.realPosition, true) <= k
      modifies this`items
      ensures ItemsValid()
      ensures |items| == k + 1 && items[..old(|items|)] == old(items) && items[k] == c
      ensures Positions() == old(Positions()) + TickPositions(normalScale, old(|items|), k) + [c.realPosition]
      ensures forall i | old(|items|) <= i < k :: fresh(items[i]) && items[i].timeItem == EmptyItem()
    {
      ghost var ps := Positions();
      var pads := MakePads(normalScale, |items|, k, circleRadius, circleTop, items + [c]);
      AppendedPads(normalScale, items, pads, c);
      ghost var n := |items|;
      items := items + pads + [c];
      assert forall i | n <= i < k :: items[i] == pads[i - n];
      BelowTicksAfterAppend(normalScale, ps, k, c.realPosition);
    }

    /**
     * `addTimeItem`'s shift: every item from index `from` on moves one tick
     * later, animated when near the screen, directly otherwise; either way its
     * time follows its position.
     */
    method ShiftItemsRight(from: int)
      requires 0 <= from <= |items| && Distinct(items) && AllTimed(normalScale, items)
      modifies items`realPosition, items`time, items`isMoving, items`isSelected
      ensures AllTimed(normalScale, items)
      ensures forall i | 0 <= i < |items| ::
        items[i].realPosition == old(items[i].realPosition) + (if i >= from then normalScale.segmentWidth else 0.0)
      ensures Positions() == old(Positions())[..from] + Shifted(old(Positions())[from..], normalScale.segmentWidth)
    {
      var w := normalScale.segmentWidth;
      ghost var ps := Positions();
      PositionsOfIndex(items);
      var j := from;
      while j < |items|
        invariant from <= j <= |items|
        invariant forall i | 0 <= i < |items| :: items[i].TimeMatches(normalScale)
        invariant forall i | 0 <= i < |items| :: items[i].realPosition == ps[i] + (if from <= i < j then w else 0.0)
      {
        var c := items[j];
        var indicatorPos := c.realPosition - currentLeft;
        if -w < indicatorPos < layout.screenWidth as real + w {
          c.MoveToNext(normalScale, true);
        } else {
          c.ShiftBy(normalScale, w);
        }
        j := j + 1;
      }
      PositionsOfShifted(items, ps, from, w);
    }

    /**
     * `addTimeItem`'s insert branch: the items from k on move one tick later
     * and the new item takes index k.
     */
    method InsertShifted(c: CircleIndicator, k: int)
      requires ItemsValid() && operation.Idle? && 0 <= k < |items|
      requires c !in items && c.TimeMatches(normalScale) && k == CalcTimeIndex(normalScale, c.realPosition, true)
      modifies this`items, items`realPosition, items`time, items`isMoving, items`isSelected
      ensures ItemsValid()
      ensures items == old(items[..k]) + [c] + old(items[k..])
      ensures Positions() == old(Positions())[..k] + [c.realPosition] + Shifted(old(Positions())[k..], normalScale.segmentWidth)
    {
      ghost var ps := Positions();
      DistinctInsert(items, k, c);
      BelowTicksAfterInsert(normalScale, ps, k, c.realPosition);
      ShiftItemsRight(k);
      PositionsOfInsert(items, ps, k, c, normalScale.segmentWidth);
      AllTimedInsert(normalScale, items, k, c);
      items := items[..k] + [c] + items[k..];
    }

    /**
     * `addTimeItem(flag, color, data)`: ignored while playing, in full mode,
     * when every tick holds an item, or while another add or delete runs.
     * Otherwise a new item is made at the playhead's tick k: past the end of
     * the list the gap is padded with empty items, the item appended and the
     * playhead stepped on to the next tick; within the list the item is
     * inserted at k, the items from k on move one tick later, and a range that
     * covers the playhead grows by one tick.  The item then fades in.
     */
    method AddTimeItem(flag: int, color: int, data: Option<Payload>)
      requires Valid()
      modifies this, items
      modifies timeIndicator`realPosition, timeIndicator`currentPosition, timeIndicator`time, timeIndicator`oldMillisecond
      modifies rangeIndicator.markerB`realPosition, rangeIndicator.markerB`currentPosition, rangeIndicator.markerB`time, rangeIndicator.markerB`oldMillisecond
      ensures Valid()
      ensures old(isPlaying || isFullMode || IsFull(normalScale, |items|) || isOperating) ==>
        items == old(items) && isOperating == old(isOperating) && events == old(events)
      ensures !old(isPlaying || isFullMode || IsFull(normalScale, |items|) || isOperating) ==>
        var k := old(CalcTimeIndex(normalScale, timeIndicator.realPosition, true));
        && operation.Showing? && operation.shown.timeItem == TimeItem(flag, color, data)
        && TimeItems() == AddedItems(old(TimeItems()), k, TimeItem(flag, color, data))
        && (old(OnGrid() && PlayheadOnTick()) ==> OnGrid())
        && (k >= old(|items|) ==> latestTimeIndex == k + 1)
    {
      if isPlaying || isFullMode {
        return;
      }
      if IsFull(normalScale, |items|) {
        return;
      }
      if isOperating {
        return;
      }
      var timePosition := timeIndicator.realPosition;
      var c := new CircleIndicator(normalScale, TimeItem(flag, color, data), timePosition, circleRadius, circleTop);
      var timeSegmentIndex := CalcTimeIndex(normalScale, timePosition, true);
      if |items| - 1 < timeSegmentIndex {
        AddAppended(c, timeSegmentIndex);
      } else {
        AddInserted(c, timeSegmentIndex);
      }
    }

    /** `addTimeItem` past the end of the list: pad, append, fade in, step the playhead on. */
    method AddAppended(c: CircleIndicator, k: int)
      requires Valid() && !isFullMode && !isOperating && |items| <= k
      requires c !in items && c.TimeMatches(normalScale) && c.realPosition == timeIndicator.realPosition
      requires k == CalcTimeIndex(normalScale, c.realPosition, true)
      modifies this`items, this`isOperating, this`operation, this`latestTimeIndex, c
      modifies this`currentLeft, this`currentLeftIndex, this`isTimeChanged, this`events
      modifies timeIndicator`realPosition, timeIndicator`currentPosition, timeIndicator`time, timeIndicator`oldMillisecond
      ensures Valid() && operation == Showing(c)
      ensures TimeItems() == AddedItems(old(TimeItems()), k, c.timeItem)
      ensures old(OnGrid() && PlayheadOnTick()) ==> OnGrid()
      ensures latestTimeIndex == k + 1
    {
      latestTimeIndex := k + 1;
      AppendAndShow(c, k);
      MoveTimeIndicatorToCenter();
    }

    /** The list part of the append: pad, append, start the fade-in. */
    method AppendAndShow(c: CircleIndicator, k: int)
      requires Valid() && !isFullMode && !isOperating && |items| <= k
      requires c !in items && c.TimeMatches(normalScale) && c.realPosition == timeIndicator.realPosition
      requires k == CalcTimeIndex(normalScale, c.realPosition, true)
      modifies this`items, this`isOperating, this`operation, c
      ensures Valid() && operation == Showing(c)
      ensures TimeItems() == AddedItems(old(TimeItems()), k, c.timeItem)
      ensures old(OnGrid() && PlayheadOnTick()) ==> OnGrid()
    {
      AppendItem(c, k);
      StartShowing(c, k == normalScale.totalSegmentCount);
    }

    /** The append with the ruler's other invariants carried across. */
    method AppendItem(c: CircleIndicator, k: int)
      requires Valid() && !isFullMode && !isOperating && |items| <= k
      requires c !in items && c.TimeMatches(normalScale) && c.realPosition == timeIndicator.realPosition
      requires k == CalcTimeIndex(normalScale, c.realPosition, true)
      modifies this`items
      ensures Valid() && c in items
      ensures TimeItems() == AddedItems(old(TimeItems()), k, c.timeItem)
      ensures old(OnGrid() && PlayheadOnTick()) ==> OnGrid()
    {
      ghost var ps := Positions();
      ghost var cs := items;
      ghost var onGrid := OnGrid() && PlayheadOnTick();
      AppendPadded(c, k);
      TimeItemsOfAppend(cs, items, k);
      if onGrid {
        OnTicksAfterAppend(normalScale, ps, k, c.realPosition);
      }
    }

    /** `addTimeItem` within the list: shift, insert, fade in, grow the range. */
    method AddInserted(c: CircleIndicator, k: int)
      requires Valid() && !isFullMode && !isOperating && 0 <= k < |items|
      requires c !in items && c.TimeMatches(normalScale) && c.realPosition == timeIndicator.realPosition
      requires k == CalcTimeIndex(normalScale, c.realPosition, true)
      modifies this`items, this`isOperating, this`operation, items, c
      modifies this`isTimeChanged, this`events
      modifies timeIndicator`realPosition, timeIndicator`currentPosition, timeIndicator`time, timeIndicator`oldMillisecond
      modifies rangeIndicator.markerB`realPosition, rangeIndicator.markerB`currentPosition, rangeIndicator.markerB`time, rangeIndicator.markerB`oldMillisecond
      ensures Valid() && operation == Showing(c)
      ensures TimeItems() == AddedItems(old(TimeItems()), k, c.timeItem)
      ensures old(OnGrid() && PlayheadOnTick()) ==> OnGrid()
    {
      var timePosition := c.realPosition;
      InsertAndShow(c, k);
      CheckRangeIndicatorWhenAdd(TruncToInt(timePosition));
    }

    /** The list part of the insert: shift, insert, start the fade-in. */
    method InsertAndShow(c: CircleIndicator, k: int)
      requires Valid() && !isFullMode && !isOperating && 0 <= k < |items|
      requires c !in items && c.TimeMatches(normalScale) && c.realPosition == timeIndicator.realPosition
      requires k == CalcTimeIndex(normalScale, c.realPosition, true)
      modifies this`items, this`isOperating, this`operation, items, c
      ensures Valid() && operation == Showing(c)
      ensures TimeItems() == AddedItems(old(TimeItems()), k, c.timeItem)
      ensures old(OnGrid() && PlayheadOnTick()) ==> OnGrid()
    {
      InsertItem(c, k);
      StartShowing(c, true);
    }

    /** The insert with the ruler's other invariants carried across. */
    method InsertItem(c: CircleIndicator, k: int)
      requires Valid() && !isFullMode && !isOperating && 0 <= k < |items|
      requires c !in items && c.TimeMatches(normalScale) && c.realPosition == timeIndicator.realPosition
      requires k == CalcTimeIndex(normalScale, c.realPosition, true)
      modifies this`items, items`realPosition, items`time, items`isMoving, items`isSelected
      ensures Valid() && c in items
      ensures TimeItems() == AddedItems(old(TimeItems()), k, c.timeItem)
      ensures old(OnGrid() && PlayheadOnTick()) ==> OnGrid()
    {
      ghost var ps := Positions();
      ghost var cs := items;
      ghost var onGrid := OnGrid() && PlayheadOnTick();
      InsertShifted(c, k);
      TimeItemsOfInsert(cs, k, c);
      if onGrid {
        OnTicksAfterInsert(normalScale, ps, k, c.realPosition);
      }
    }

    /** The fade-in of c starts (`show`); the add is under way (`isOperating`) until it ends. */
    method StartShowing(c: CircleIndicator, inserted: bool)
      requires Valid() && !isFullMode && !isOperating && c in items
      modifies this`isOperating, this`operation
      modifies c`isShowing, c`isInserted, c`screenPosition, c`rectLeft, c`rectTop, c`rectRight, c`rectBottom
      ensures Valid() && isOperating && operation == Showing(c)
      ensures c.isShowing && c.isInserted == inserted && c.screenPosition == TruncToInt(c.realPosition - currentLeft)
    {
      isOperating, operation := true, Showing(c);
      c.Show(currentLeft, inserted);
    }

    /**
     * `checkRangeIndicatorWhenAdd(timePosition)`: with B set and the new item
     * between A and B, B moves one segment later, bounded by the last item.
     */
    method CheckRangeIndicatorWhenAdd(timePosition: int)
      requires Valid() && |items| > 0
      modifies this`isTimeChanged, this`events
      modifies timeIndicator`realPosition, timeIndicator`currentPosition, timeIndicator`time, timeIndicator`oldMillisecond
      modifies rangeIndicator.markerB`realPosition, rangeIndicator.markerB`currentPosition, rangeIndicator.markerB`time, rangeIndicator.markerB`oldMillisecond
      ensures Valid()
      ensures var b := old(rangeIndicator.markerB.realPosition);
        if rangeIndicator.isIndicatorBVisible && TruncToInt(rangeIndicator.markerA.realPosition) <= timePosition <= TruncToInt(b)
        then rangeIndicator.markerB.time
               == SnappedTime(View(), old(rangeIndicator.BTarget(View(), b + scale.segmentWidth - currentLeft, LastItemTime())))
        else unchanged(rangeIndicator.markerB) && unchanged(timeIndicator) && events == old(events)
    {
      var a, b := rangeIndicator.markerA, rangeIndicator.markerB;
      if rangeIndicator.isIndicatorBVisible
         && TruncToInt(a.realPosition) <= timePosition <= TruncToInt(b.realPosition)
      {
        MoveRangeB(b.realPosition + scale.segmentWidth - currentLeft);
      }
    }

    /**
     * The end of the fade-in (`onFinishShow`): the add is over, the item is
     * drawn selected when on the playhead's tick, and the listener hears of
     * the add and of the new size.
     */
    method FinishShow()
      requires Valid() && operation.Showing?
      modifies this`isOperating, this`operation, this`events, operation.shown
      ensures Valid() && !isOperating && operation.Idle?
      ensures events == old(events) + [Added, SizeChanged(|items|)]
      ensures var c := old(operation.shown);
        && !c.isShowing
        && (c.isSelected <==> CalcTimeIndex(normalScale, c.realPosition, true)
                              == CalcTimeIndex(normalScale, timeIndicator.realPosition, true))
    {
      var c := operation.shown;
      c.FinishShow(normalScale, currentLeft, timeIndicator.realPosition);
      isOperating := false;
      operation := Idle;
      Emit([Added, SizeChanged(|items|)]);
    }

    /**
     * `delete()`: ignored while playing, in full mode, when no item is on the
     * playhead's tick k, or while another add or delete runs.  Otherwise the
     * range is adjusted for item k, the items after it move one tick earlier,
     * and item k starts to fade out; it leaves the list when the fade-out ends
     * (`FinishDelete`).
     */
    method Delete()
      requires Valid()
      modifies this`isOperating, this`operation, this`isTimeChanged, this`events
      modifies items`realPosition, items`time, items`isMoving
      modifies timeIndicator`realPosition, timeIndicator`currentPosition, timeIndicator`time, timeIndicator`oldMillisecond
      modifies rangeIndicator`isIndicatorAVisible, rangeIndicator`isIndicatorBVisible
      modifies rangeIndicator.markerA`realPosition, rangeIndicator.markerA`currentPosition, rangeIndicator.markerA`time, rangeIndicator.markerA`oldMillisecond
      modifies rangeIndicator.markerB`realPosition, rangeIndicator.markerB`currentPosition, rangeIndicator.markerB`time, rangeIndicator.markerB`oldMillisecond
      ensures Valid()
      ensures var k := old(CalcTimeIndex(scale, timeIndicator.realPosition, true));
        old(isPlaying || isFullMode || |items| <= k || isOperating) ==>
          operation == old(operation) && events == old(events) && Positions() == old(Positions())
      ensures var k := old(CalcTimeIndex(scale, timeIndicator.realPosition, true));
        !old(isPlaying || isFullMode || |items| <= k || isOperating) ==>
          && operation == Deleting(items[k], k)
          && Positions() == ShiftedFrom(old(Positions()), k + 1, -normalScale.segmentWidth)
          && (old(OnGrid()) ==> OnTicksAround(normalScale, Positions(), k))
    {
      if isPlaying || isFullMode {
      } else {
        var index := CalcTimeIndex(scale, timeIndicator.realPosition, true);
        if index > |items| - 1 || isOperating {
        } else {
          DeleteAt(index);
        }
      }
    }

    /** `delete` past its guards: adjust the range for item k, then shift and start the fade-out. */
    method DeleteAt(k: int)
      requires Valid() && !isFullMode && !isOperating && 0 <= k < |items|
      modifies this`isOperating, this`operation, this`isTimeChanged, this`events
      modifies items`realPosition, items`time, items`isMoving
      modifies timeIndicator`realPosition, timeIndicator`currentPosition, timeIndicator`time, timeIndicator`oldMillisecond
      modifies rangeIndicator`isIndicatorAVisible, rangeIndicator`isIndicatorBVisible
      modifies rangeIndicator.markerA`realPosition, rangeIndicator.markerA`currentPosition, rangeIndicator.markerA`time, rangeIndicator.markerA`oldMillisecond
      modifies rangeIndicator.markerB`realPosition, rangeIndicator.markerB`currentPosition, rangeIndicator.markerB`time, rangeIndicator.markerB`oldMillisecond
      ensures Valid() && operation == Deleting(items[k], k)
      ensures Positions() == ShiftedFrom(old(Positions()), k + 1, -normalScale.segmentWidth)
      ensures old(OnGrid()) ==> OnTicksAround(normalScale, Positions(), k)
    {
      CheckRangeIndicatorWithDelete(items[k]);
      StartDeleting(k);
    }

    /** The items after k move one tick earlier and item k starts to fade out. */
    method StartDeleting(k: int)
      requires Valid() && !isFullMode && !isOperating && 0 <= k < |items|
      modifies this`isOperating, this`operation, items`realPosition, items`time, items`isMoving
      ensures Valid() && operation == Deleting(items[k], k)
      ensures Positions() == ShiftedFrom(old(Positions()), k + 1, -normalScale.segmentWidth)
      ensures old(OnGrid()) ==> OnTicksAround(normalScale, Positions(), k)
    {
      ShiftForDelete(k);
      IndicatorsAndLogKept(this);
    }

    /** `delete`'s shift: the items after k move one tick earlier, leaving a hole at k. */
    method ShiftForDelete(k: int)
      requires ItemsValid() && operation.Idle? && 0 <= k < |items|
      requires normalScale.segmentWidth == 100.0 && normalScale.timeOfPerPixel == 2.0
      modifies this`isOperating, this`operation, items`realPosition, items`time, items`isMoving
      ensures ItemsValid() && isOperating && operation == Deleting(items[k], k)
      ensures Positions() == ShiftedFrom(old(Positions()), k + 1, -normalScale.segmentWidth)
      ensures old(OnGrid()) ==> OnTicksAround(normalScale, Positions(), k)
    {
      ghost var ps := Positions();
      BelowTicksAfterShiftLeft(normalScale, ps, k);
      OnTicksAfterShiftLeft(normalScale, ps, k);
      isOperating, operation := true, Deleting(items[k], k);
      ShiftItemsLeft(k + 1);
    }

    /**
     * `delete`'s shift: every item from index `from` on moves one tick
     * earlier, animated when near the screen, directly otherwise; either way
     * its time follows its position.
     */
    method ShiftItemsLeft(from: int)
      requires 0 <= from <= |items| && Distinct(items) && AllTimed(normalScale, items)
      requires normalScale.segmentWidth == 100.0 && normalScale.timeOfPerPixel == 2.0
      modifies items`realPosition, items`time, items`isMoving
      ensures AllTimed(normalScale, items)
      ensures Positions() == ShiftedFrom(old(Positions()), from, -normalScale.segmentWidth)
    {
      var w := normalScale.segmentWidth;
      ghost var ps := Positions();
      PositionsOfIndex(items);
      var j := from;
      while j < |items|
        invariant from <= j <= |items|
        invariant forall i | 0 <= i < |items| :: items[i].TimeMatches(normalScale)
        invariant forall i | 0 <= i < |items| :: items[i].realPosition == ps[i] + (if from <= i < j then -w else 0.0)
      {
        var c := items[j];
        var indicatorPos := c.realPosition - currentLeft;
        if -w < indicatorPos < layout.screenWidth as real + w {
          c.MoveToPrevious(normalScale, true);
        } else {
          c.ShiftBy(normalScale, -w);
        }
        j := j + 1;
      }
      PositionsOfShifted(items, ps, from, -w);
    }

    /**
     * `checkRangeIndicatorWithDelete(d)`, before d leaves the list: with only
     * A set, deleting at tick 0 clears the range, and deleting at A's tick
     * when that is the last item's tick sends A to one segment before the
     * playhead; with B set, deleting at tick 0, or at the tick A and B share,
     * clears the range, and deleting at a tick from A to B sends B one
     * segment earlier.  A marker that moves may pull the playhead.
     */
    method CheckRangeIndicatorWithDelete(d: CircleIndicator)
      requires Valid() && |items| > 0
      modifies this`isTimeChanged, this`events
      modifies timeIndicator`realPosition, timeIndicator`currentPosition, timeIndicator`time, timeIndicator`oldMillisecond
      modifies rangeIndicator`isIndicatorAVisible, rangeIndicator`isIndicatorBVisible
      modifies rangeIndicator.markerA`realPosition, rangeIndicator.markerA`currentPosition, rangeIndicator.markerA`time, rangeIndicator.markerA`oldMillisecond
      modifies rangeIndicator.markerB`realPosition, rangeIndicator.markerB`currentPosition, rangeIndicator.markerB`time, rangeIndicator.markerB`oldMillisecond
      ensures Valid()
      ensures var change := old(RangeChangeOnDelete(d));
        && (change == ClearRange ==> !rangeIndicator.isIndicatorAVisible && !rangeIndicator.isIndicatorBVisible)
        && (change == PullABack ==> rangeIndicator.markerA.time == SnappedTime(View(),
              old(rangeIndicator.ATarget(View(), timeIndicator.realPosition - scale.segmentWidth - currentLeft, LastItemTime()))))
        && (change == PullBBack ==> rangeIndicator.markerB.time == SnappedTime(View(),
              old(rangeIndicator.BTarget(View(), rangeIndicator.markerB.realPosition - scale.segmentWidth - currentLeft, LastItemTime()))))
        && (change == KeepRange ==>
              unchanged(rangeIndicator`isIndicatorAVisible, rangeIndicator`isIndicatorBVisible)
              && unchanged(rangeIndicator.markerA, rangeIndicator.markerB, timeIndicator) && events == old(events))
    {
      var change := RangeChangeOnDelete(d);
      if change == ClearRange {
        HideRange();
      } else if change == PullABack {
        MoveRangeA(timeIndicator.realPosition - scale.segmentWidth - currentLeft);
      } else if change == PullBBack {
        MoveRangeB(rangeIndicator.markerB.realPosition - scale.segmentWidth - currentLeft);
      }
    }

    /** Both markers hide and return to the ruler's start (`rangeIndicator.reset()`); no listener hears of it. */
    method HideRange()
      requires Valid()
      modifies rangeIndicator`isIndicatorAVisible, rangeIndicator`isIndicatorBVisible
      modifies rangeIndicator.markerA`realPosition, rangeIndicator.markerA`time, rangeIndicator.markerB`realPosition, rangeIndicator.markerB`time
      ensures Valid() && !rangeIndicator.isIndicatorAVisible && !rangeIndicator.isIndicatorBVisible
      ensures rangeIndicator.markerA.time == 0 && rangeIndicator.markerB.time == 0
    {
      rangeIndicator.Reset(scale);
    }

    /** Marker A moves to the tick nearest `position`; when its time changed the playhead is kept inside the range. */
    method MoveRangeA(position: real)
      requires Valid() && |items| > 0
      modifies this`isTimeChanged, this`events
      modifies timeIndicator`realPosition, timeIndicator`currentPosition, timeIndicator`time, timeIndicator`oldMillisecond
      modifies rangeIndicator.markerA`realPosition, rangeIndicator.markerA`currentPosition, rangeIndicator.markerA`time, rangeIndicator.markerA`oldMillisecond
      ensures Valid()
      ensures rangeIndicator.markerA.time == SnappedTime(View(), old(rangeIndicator.ATarget(View(), position, LastItemTime())))
    {
      var notified := rangeIndicator.UpdateIndicatorAPosition(View(), position, LastItemTime());
      if notified {
        OnRangeChanged();
      }
    }

    /** Marker B moves to the tick nearest `position`; when its time changed the playhead is kept inside the range. */
    method MoveRangeB(position: real)
      requires Valid() && |items| > 0
      modifies this`isTimeChanged, this`events
      modifies timeIndicator`realPosition, timeIndicator`currentPosition, timeIndicator`time, timeIndicator`oldMillisecond
      modifies rangeIndicator.markerB`realPosition, rangeIndicator.markerB`currentPosition, rangeIndicator.markerB`time, rangeIndicator.markerB`oldMillisecond
      ensures Valid()
      ensures rangeIndicator.markerB.time == SnappedTime(View(), old(rangeIndicator.BTarget(View(), position, LastItemTime())))
    {
      var notified := rangeIndicator.UpdateIndicatorBPosition(View(), position, LastItemTime());
      if notified {
        OnRangeChanged();
      }
    }

    /** The change `checkRangeIndicatorWithDelete` makes for d, from the ticks of d, the last item, A and B. */
    function RangeChangeOnDelete(d: CircleIndicator): RangeChange
      requires Valid() && |items| > 0
      reads this`scale, this`items, this`isFullMode, this`isOperating, this`operation, this`startMark, this`events, this`isCalledStart
      reads d, items, timeIndicator, playIndicator, rangeIndicator, rangeIndicator.markerA, rangeIndicator.markerB
    {
      RangeOnDelete(rangeIndicator.isIndicatorAVisible, rangeIndicator.isIndicatorBVisible,
                    CalcTimeIndex(scale, d.realPosition, true),
                    CalcTimeIndex(scale, items[|items| - 1].realPosition, true),
                    CalcTimeIndex(scale, rangeIndicator.markerA.realPosition, true),
                    CalcTimeIndex(scale, rangeIndicator.markerB.realPosition, true))
    }

    /**
     * The end of the fade-out (`onDeleted`): the item leaves the list, the
     * delete is over, and the listener hears of the delete, of the item now
     * at that index (or of no selection) and of the new size.
     */
    method FinishDelete()
      requires Valid() && operation.Deleting?
      modifies this`items, this`isOperating, this`operation, this`events, operation.removed`isDeleting
      ensures Valid() && !isOperating && operation.Idle?
      ensures var k := old(operation.index);
        && items == old(items[..k] + items[k + 1..])
        && TimeItems() == DeletedItems(old(TimeItems()), k)
        && events == old(events) + [Deleted, SelectionAfterDelete(TimeItems(), k), SizeChanged(|items|)]
        && (old(OnTicksAround(normalScale, Positions(), Hole())) ==> OnGrid())
        && !old(operation.removed).isDeleting
    {
      var k := operation.index;
      DropDeleted();
      var selected := if 0 < |items| && k < |items| then SelectedStateChanged(true, Some(items[k].timeItem))
                      else SelectedStateChanged(false, None);
      Emit([Deleted, selected, SizeChanged(|items|)]);
    }

    /** The removed item stops fading out and leaves the list; the delete is over. */
    method DropDeleted()
      requires Valid() && operation.Deleting?
      modifies this`items, this`isOperating, this`operation, operation.removed`isDeleting
      ensures Valid() && !isOperating && operation.Idle? && events == old(events)
      ensures var k := old(operation.index);
        && items == old(items[..k] + items[k + 1..])
        && TimeItems() == DeletedItems(old(TimeItems()), k)
        && (old(OnTicksAround(normalScale, Positions(), Hole())) ==> OnGrid())
        && !old(operation.removed).isDeleting
    {
      var c, k := operation.removed, operation.index;
      c.FinishDelete();
      RemoveItem(k);
      isOperating := false;
      IndicatorsAndLogKept(this);
    }

    /** The item that fades out leaves the list (`timeItemList.remove`), closing the hole. */
    method RemoveItem(k: int)
      requires ItemsValid() && operation.Deleting? && k == operation.index
      modifies this`items, this`operation
      ensures ItemsValid() && operation.Idle?
      ensures items == old(items[..k] + items[k + 1..])
      ensures TimeItems() == DeletedItems(old(TimeItems()), k)
      ensures old(OnTicksAround(normalScale, Positions(), k)) ==> OnGrid()
    {
      ghost var ps := Positions();
      DistinctRemove(items, k);
      AllTimedRemove(normalScale, items, k);
      BelowTicksAfterRemove(normalScale, ps, k);
      PositionsOfRemove(items, k);
      TimeItemsOfRemove(items, k);
      OnTicksAfterRemove(normalScale, ps, k);
      items, operation := items[..k] + items[k + 1..], Idle;
    }

    /**
     * `getTimeItemIndex(time)`: the index of the first item whose time is
     * `time`, or -1 when there is none.
     */
    method GetTimeItemIndex(time: int) returns (index: int)
      ensures -1 <= index < |items|
      ensures index == -1 <==> forall i | 0 <= i < |items| :: items[i].time != time
      ensures index >= 0 ==> items[index].time == time && forall i | 0 <= i < index :: items[i].time != time
    {
      var i := 0;
      while i < |items|
        invariant 0 <= i <= |items|
        invariant forall j | 0 <= j < i :: items[j].time != time
      {
        if items[i].time == time {
          return i;
        }
        i := i + 1;
      }
      return -1;
    }

    /** The time of the last item, which bounds the range markers. */
    function LastItemTime(): int
      requires |items| > 0
      reads this`items, items
    {
      items[|items| - 1].time
    }

    /** The screen position the playhead is sent to for a touch at x: not left of A, not right of B. */
    function PlayheadTarget(x: real): real
      reads this`currentLeft, rangeIndicator, rangeIndicator.markerA, rangeIndicator.markerB
    {
      ClampToRange(x, rangeIndicator.isIndicatorAVisible, rangeIndicator.GetIndicatorAPosition(currentLeft),
                   rangeIndicator.isIndicatorBVisible, rangeIndicator.GetIndicatorBPosition(currentLeft))
    }

    /** `updateTimeIndicatorPosition`: settle the playhead at a touch, kept within the range. */
    method UpdateTimeIndicatorPosition(x: real)
      requires Valid()
      modifies this`isTimeChanged, this`events
      modifies timeIndicator`realPosition, timeIndicator`currentPosition, timeIndicator`time, timeIndicator`oldMillisecond
      ensures Valid()
      ensures timeIndicator.time == SnappedTime(View(), PlayheadTarget(x))
      ensures timeIndicator.realPosition == CalcPosition(scale, timeIndicator.time)
      ensures events == old(events) || events == old(events) + PositionChangedEvents(timeIndicator.time, TimeItems())
    {
      var _ := UpdatePlayhead(PlayheadTarget(x));
    }

    /** `moveTimeIndicator`: follow a drag of the playhead, kept within the range. */
    method MoveTimeIndicator(x: real)
      requires Valid()
      modifies this`isTimeChanged, this`events
      modifies timeIndicator`realPosition, timeIndicator`currentPosition, timeIndicator`time, timeIndicator`oldMillisecond
      ensures Valid()
      ensures timeIndicator.currentPosition == CheckAndFixToRealPosition(View(), PlayheadTarget(x)) - currentLeft
      ensures !isFullMode ==> timeIndicator.realPosition == old(timeIndicator.realPosition)
                              && timeIndicator.time == old(timeIndicator.time) && events == old(events)
      ensures isFullMode ==> timeIndicator.realPosition == CheckAndFixToRealPosition(View(), PlayheadTarget(x))
    {
      var notified := timeIndicator.MoveTo(View(), PlayheadTarget(x));
      if notified {
        NotifyPlayheadChanged();
      }
    }

    /**
     * `ACTION_DOWN`: grab a range marker if one is hit, else the playhead if it
     * is hit.  `hitA`, `hitB` and `hitPlayhead` say which bitmaps the touch hits.
     * Touches are ignored while playing or while an add or delete runs.
     */
    method TouchDown(hitA: bool, hitB: bool, hitPlayhead: bool)
      requires Valid()
      modifies rangeIndicator`isTouchedA, rangeIndicator`isTouchedB, rangeIndicator`isDragging
      modifies rangeIndicator.markerA`isDragging, rangeIndicator.markerB`isDragging, timeIndicator`isDragging
      ensures Valid()
      ensures old(isPlaying || isOperating) ==>
        unchanged(rangeIndicator, rangeIndicator.markerA, rangeIndicator.markerB, timeIndicator)
      ensures !old(isPlaying || isOperating) ==>
        var touched := if rangeIndicator.isIndicatorAVisible && !rangeIndicator.isIndicatorBVisible then hitA else hitA || hitB;
        (rangeIndicator.isDragging <==> (touched || old(rangeIndicator.isDragging)))
        && (timeIndicator.isDragging <==> (old(timeIndicator.isDragging) || (!touched && hitPlayhead)))
    {
      if !isPlaying && !isOperating {
        var touched := rangeIndicator.IsTouched(scale, |items|, hitA, hitB);
        if touched {
          rangeIndicator.SetDragging(true);
        } else if hitPlayhead {
          timeIndicator.isDragging := true;
        }
      }
      ItemsKept(this);
    }

    /**
     * `ACTION_MOVE`: drag the grabbed marker, else the grabbed playhead, else
     * scroll the ruler by dx.  A dragged marker is bounded by the last item,
     * which must exist (the source reads the last element of the list).
     */
    method TouchMove(x: real, dx: real)
      requires Valid()
      requires rangeIndicator.isDragging ==> |items| > 0
      modifies this`currentLeft, this`currentLeftIndex, this`isTimeChanged, this`events
      modifies rangeIndicator.markerA`realPosition, rangeIndicator.markerA`currentPosition, rangeIndicator.markerA`time, rangeIndicator.markerA`oldMillisecond
      modifies rangeIndicator.markerB`realPosition, rangeIndicator.markerB`currentPosition, rangeIndicator.markerB`time, rangeIndicator.markerB`oldMillisecond
      modifies timeIndicator`realPosition, timeIndicator`currentPosition, timeIndicator`time, timeIndicator`oldMillisecond
      ensures Valid()
      ensures old(isPlaying || isOperating) ==> unchanged(this) && unchanged(timeIndicator)
      ensures !old(isPlaying || isOperating) && !rangeIndicator.isDragging && !old(timeIndicator.isDragging) ==>
        currentLeft == ClampLeft(old(currentLeft) - dx, scale.ViewWidth() - layout.screenWidth as real)
        && currentLeftIndex == CalcTimeIndex(scale, currentLeft, false)
      ensures rangeIndicator.isDragging || old(timeIndicator.isDragging) ==> currentLeft == old(currentLeft)
      ensures !old(isPlaying || isOperating) && !rangeIndicator.isDragging && old(timeIndicator.isDragging) ==>
        timeIndicator.currentPosition == CheckAndFixToRealPosition(View(), old(PlayheadTarget(x))) - currentLeft
    {
      if isPlaying || isOperating {
      } else if rangeIndicator.isDragging {
        var notified := rangeIndicator.MoveTo(View(), x, LastItemTime());
        if notified {
          OnRangeChanged();
        }
      } else if timeIndicator.isDragging {
        MoveTimeIndicator(x);
      } else {
        currentLeft := currentLeft - dx;
        ComputeTime();
      }
    }

    /**
     * `ACTION_UP`: drop a grabbed marker or playhead where the touch ends (the
     * playhead's tick becomes the latest touched index), or, for a tap, settle
     * the playhead there and report a click when the tapped item was already
     * the selected one.  `isTap` says the touch stayed put (no scroll, at most
     * 6 px from where it went down); a flick is left out.
     */
    method TouchUp(x: real, y: real, isTap: bool)
      requires Valid()
      requires rangeIndicator.isDragging ==> |items| > 0
      modifies this`isTimeChanged, this`events, this`latestTimeIndex
      modifies rangeIndicator`isTouchedA, rangeIndicator`isTouchedB, rangeIndicator`isDragging
      modifies rangeIndicator.markerA`isDragging, rangeIndicator.markerB`isDragging, timeIndicator`isDragging
      modifies rangeIndicator.markerA`realPosition, rangeIndicator.markerA`currentPosition, rangeIndicator.markerA`time, rangeIndicator.markerA`oldMillisecond
      modifies rangeIndicator.markerB`realPosition, rangeIndicator.markerB`currentPosition, rangeIndicator.markerB`time, rangeIndicator.markerB`oldMillisecond
      modifies timeIndicator`realPosition, timeIndicator`currentPosition, timeIndicator`time, timeIndicator`oldMillisecond
      ensures Valid()
      ensures old(isPlaying || isOperating) ==> unchanged(this) && unchanged(timeIndicator)
      ensures !old(isPlaying || isOperating) && old(rangeIndicator.isDragging) ==>
        !rangeIndicator.isDragging && latestTimeIndex == old(latestTimeIndex)
      ensures !old(isPlaying || isOperating) && !old(rangeIndicator.isDragging) && (old(timeIndicator.isDragging) || isTap) ==>
        && !timeIndicator.isDragging
        && timeIndicator.time == SnappedTime(View(), old(PlayheadTarget(x)))
        && latestTimeIndex == CalcTimeIndex(scale, timeIndicator.realPosition, true)
    {
      if isPlaying || isOperating {
      } else if rangeIndicator.isDragging {
        ReleaseRange(x);
      } else if timeIndicator.isDragging {
        ReleasePlayhead(x);
      } else if isTap {
        UpdateTimeIndicatorPosition(x);
        Tap(x, y);
      }
    }

    /** The end of a marker drag: the marker settles on a tick and may pull the playhead. */
    method ReleaseRange(x: real)
      requires Valid() && rangeIndicator.isDragging && |items| > 0
      modifies this`isTimeChanged, this`events
      modifies rangeIndicator`isTouchedA, rangeIndicator`isTouchedB, rangeIndicator`isDragging
      modifies rangeIndicator.markerA`isDragging, rangeIndicator.markerB`isDragging
      modifies rangeIndicator.markerA`realPosition, rangeIndicator.markerA`currentPosition, rangeIndicator.markerA`time, rangeIndicator.markerA`oldMillisecond
      modifies rangeIndicator.markerB`realPosition, rangeIndicator.markerB`currentPosition, rangeIndicator.markerB`time, rangeIndicator.markerB`oldMillisecond
      modifies timeIndicator`realPosition, timeIndicator`currentPosition, timeIndicator`time, timeIndicator`oldMillisecond
      ensures Valid()
      ensures !rangeIndicator.isDragging && !rangeIndicator.isTouchedA && !rangeIndicator.isTouchedB
    {
      rangeIndicator.SetDragging(false);
      var notified := rangeIndicator.UpdatePosition(View(), x, LastItemTime());
      if notified {
        OnRangeChanged();
      }
    }

    /** The end of a playhead drag: it settles on a tick, which becomes the latest touched index. */
    method ReleasePlayhead(x: real)
      requires Valid()
      modifies this`isTimeChanged, this`events, this`latestTimeIndex
      modifies timeIndicator`isDragging, timeIndicator`realPosition, timeIndicator`currentPosition, timeIndicator`time, timeIndicator`oldMillisecond
      ensures Valid()
      ensures !timeIndicator.isDragging
      ensures timeIndicator.time == SnappedTime(View(), old(PlayheadTarget(x)))
      ensures latestTimeIndex == CalcTimeIndex(scale, timeIndicator.realPosition, true)
    {
      timeIndicator.isDragging := false;
      UpdateTimeIndicatorPosition(x);
      latestTimeIndex := CalcTimeIndex(scale, timeIndicator.realPosition, true);
    }

    /**
     * After a tap has settled the playhead: its tick becomes the latest touched
     * index, and the item there is clicked when the tap hits it and the
     * previous touch was on the same tick.
     */
    method Tap(x: real, y: real)
      requires Valid()
      modifies this`events, this`latestTimeIndex
      ensures Valid()
      ensures latestTimeIndex == CalcTimeIndex(scale, timeIndicator.realPosition, true)
      ensures events == old(events) + ClickEvents(latestTimeIndex, TruncToInt(x), TruncToInt(y), old(latestTimeIndex))
    {
      var timeIndex := CalcTimeIndex(scale, timeIndicator.realPosition, true);
      ProcessTimeItemClick(timeIndex, TruncToInt(x), TruncToInt(y));
      latestTimeIndex := timeIndex;
    }

    /**
     * `processTimeItemClick`'s callback: a click on the item at the tapped index
     * when the tap hits it and the index was the latest touched one, else nothing.
     */
    function ClickEvents(timeIndex: int, x: int, y: int, latest: int): (es: seq<Event>)
      requires timeIndex >= 0
      reads this`items, items
      ensures |es| <= 1
      ensures |es| == 1 <==> IsClick(timeIndex, |items|, timeIndex < |items| && items[timeIndex].IsTouched(x, y), latest)
      ensures |es| == 1 ==> es[0] == Clicked(timeIndex, items[timeIndex].timeItem)
    {
      if timeIndex != -1 && timeIndex < |items| && items[timeIndex].IsTouched(x, y) && latest == timeIndex
      then [Clicked(timeIndex, items[timeIndex].timeItem)]
      else []
    }

    /** `processTimeItemClick`: report the click, if the tap is one. */
    method ProcessTimeItemClick(timeIndex: int, x: int, y: int)
      requires Valid() && timeIndex >= 0
      modifies this`events
      ensures Valid()
      ensures events == old(events) + ClickEvents(timeIndex, x, y, latestTimeIndex)
    {
      if timeIndex != -1 && timeIndex < |items| {
        var circleIndicator := items[timeIndex];
        if circleIndicator.IsTouched(x, y) && latestTimeIndex == timeIndex {
          Emit([Clicked(timeIndex, circleIndicator.timeItem)]);
        }
      }
    }

    // ------------------------------------------------------------ playback

    /** Show the play indicator instead of the playhead (`playing`), or the playhead instead. */
    method ShowPlayIndicator(playing: bool)
      requires Valid()
      modifies timeIndicator`isVisible, playIndicator`isVisible
      ensures Valid()
      ensures playIndicator.isVisible == playing && timeIndicator.isVisible == !playing
    {
      playIndicator.isVisible := playing;
      timeIndicator.isVisible := !playing;
    }

    /** `callbackStart`: `onStart`, unless it already fired since playback was started. */
    method CallbackStart()
      requires Valid()
      modifies this`isCalledStart, this`events
      ensures Valid() && isCalledStart
      ensures events == old(events) + (if old(isCalledStart) then [] else [PlayStarted])
    {
      if !isCalledStart {
        assert (events + [PlayStarted])[startMark..] == events[startMark..] + [PlayStarted];
        CountStartsSnoc(events[startMark..], PlayStarted);
        isCalledStart := true;
        events := events + [PlayStarted];
      }
    }

    /**
     * `checkIfNeedToContinuePlay`: playback has stopped, so `onStop`.  Its other
     * branch resumes playback in the other mode after a mode switch made during
     * playback, which this model does not make.
     */
    method CheckIfNeedToContinuePlay()
      requires Valid()
      modifies this`events
      ensures Valid() && events == old(events) + [PlayStopped]
    {
      Emit([PlayStopped]);
    }

    /** Both the play indicator and the playhead at `position`, each with the time of that position. */
    method PlaceIndicators(position: real)
      requires Valid()
      modifies timeIndicator`realPosition, timeIndicator`time, playIndicator`realPosition, playIndicator`time
      ensures Valid()
      ensures timeIndicator.realPosition == position && playIndicator.realPosition == position
      ensures timeIndicator.time == CalcTimeMillisecond(scale, position, true) && playIndicator.time == timeIndicator.time
    {
      timeIndicator.SetRealPosition(scale, position);
      playIndicator.SetRealPosition(scale, position);
    }

    /**
     * The distance the play animation scrolls (`totalMovePos`): from the start
     * position to B when B is set, else from the start tick to the last item.
     */
    function PlayDistance(): real
      reads this`startPlayTimePosition, this`startPlayTimeIndex, this`items, this`scale
      reads rangeIndicator`isIndicatorBVisible, rangeIndicator.markerB`realPosition
    {
      if rangeIndicator.isIndicatorBVisible then rangeIndicator.markerB.realPosition - startPlayTimePosition
      else (|items| - startPlayTimeIndex - 1) as real * scale.segmentWidth
    }

    /**
     * The play animation ends where playback should: at B when B is set;
     * otherwise, from a start on a tick, at the last tick with an item, which
     * on the grid is the last item itself.
     */
    lemma PlayDistanceReachesEnd()
      requires Valid()
      ensures rangeIndicator.isIndicatorBVisible ==>
        startPlayTimePosition + PlayDistance() == rangeIndicator.markerB.realPosition
      ensures !rangeIndicator.isIndicatorBVisible && startPlayTimePosition == TickPosition(scale, startPlayTimeIndex) ==>
        startPlayTimePosition + PlayDistance() == TickPosition(scale, |items| - 1)
      ensures !rangeIndicator.isIndicatorBVisible && startPlayTimePosition == TickPosition(scale, startPlayTimeIndex)
              && !isFullMode && OnGrid() && |items| > 0 ==>
        startPlayTimePosition + PlayDistance() == items[|items| - 1].realPosition
    {
      TicksAhead(scale, startPlayTimeIndex, |items| - 1);
      if !isFullMode && OnGrid() && |items| > 0 {
        PositionsOfIndex(items);
        assert Positions()[|items| - 1] == TickPosition(normalScale, |items| - 1);
      }
    }

    /** The part of `doPlay` that starts the player: the play animation, or the first step of the stepped player. */
    method StartPlayer(totalMovePos: real)
      requires Valid()
      modifies this`startPlayRealPosition, this`playAnimating, this`animFrom, this`animTo, this`tickQueued
      modifies this`isCalledStart, this`events, timeIndicator`isVisible, playIndicator`isVisible
      ensures Valid() && isCalledStart && playIndicator.isVisible && !timeIndicator.isVisible
      ensures startPlayRealPosition == TruncToInt(playIndicator.realPosition - currentLeft)
      ensures isAnimatorEnable ==>
        playAnimating && animFrom == TruncToInt(currentLeft) && animTo == TruncToInt(totalMovePos + currentLeft)
        && tickQueued == old(tickQueued)
      ensures !isAnimatorEnable ==> tickQueued && playAnimating == old(playAnimating)
      ensures events == old(events) + (if old(isCalledStart) then [] else [PlayStarted])
    {
      ArmPlayer(totalMovePos);
      AnnouncePlay();
    }

    /** The player's own state at the start: the animation's range, or the stepped player's first message. */
    method ArmPlayer(totalMovePos: real)
      requires Valid()
      modifies this`startPlayRealPosition, this`playAnimating, this`animFrom, this`animTo, this`tickQueued
      ensures Valid()
      ensures startPlayRealPosition == TruncToInt(playIndicator.realPosition - currentLeft)
      ensures isAnimatorEnable ==>
        playAnimating && animFrom == TruncToInt(currentLeft) && animTo == TruncToInt(totalMovePos + currentLeft)
        && tickQueued == old(tickQueued)
      ensures !isAnimatorEnable ==> tickQueued && playAnimating == old(playAnimating)
    {
      var start := TruncToInt(playIndicator.realPosition - currentLeft);
      if isAnimatorEnable {
        var from, to := TruncToInt(currentLeft), TruncToInt(totalMovePos + currentLeft);
        startPlayRealPosition, playAnimating, animFrom, animTo := start, true, from, to;
        ValidKept(this);
      } else {
        startPlayRealPosition, tickQueued := start, true;
        ValidKept(this);
      }
    }

    /** The play indicator replaces the playhead, and `onStart` fires once per playback. */
    method AnnouncePlay()
      requires Valid()
      modifies this`isCalledStart, this`events, timeIndicator`isVisible, playIndicator`isVisible
      ensures Valid() && isCalledStart && playIndicator.isVisible && !timeIndicator.isVisible
      ensures events == old(events) + (if old(isCalledStart) then [] else [PlayStarted])
    {
      ShowPlayIndicator(true);
      CallbackStart();
    }

    /**
     * `doPlay`: show the play indicator, start the play animation (scrolling
     * the ruler by `PlayDistance()`) or, without animations, the stepped
     * player; fire `onStart` once per playback and report the time of the
     * tick the play indicator is on.
     */
    method DoPlay()
      requires Valid() && CalcTimeIndex(scale, playIndicator.realPosition, true) < |items|
      modifies this`startPlayRealPosition, this`playAnimating, this`animFrom, this`animTo, this`tickQueued
      modifies this`isCalledStart, this`events, timeIndicator`isVisible, playIndicator`isVisible
      ensures Valid() && isCalledStart && playIndicator.isVisible && !timeIndicator.isVisible
      ensures startPlayRealPosition == TruncToInt(playIndicator.realPosition - currentLeft)
      ensures isAnimatorEnable ==> playAnimating && animTo == TruncToInt(PlayDistance() + currentLeft)
      ensures !isAnimatorEnable ==> tickQueued
      ensures var k := CalcTimeIndex(scale, playIndicator.realPosition, true);
        events == old(events) + (if old(isCalledStart) then [] else [PlayStarted])
                              + [PlayTimeChanged(PlayReportTime(scale, k), items[k].timeItem)]
    {
      var k := CalcTimeIndex(scale, playIndicator.realPosition, true);
      var changed := PlayTimeChanged(PlayReportTime(scale, k), items[k].timeItem);
      StartPlayer(PlayDistance());
      Emit([changed]);
    }

    /** The last item's tick, rounded, is an index of the list: what keeps the player's lookups in range. */
    lemma LastItemTickBound()
      requires Valid() && |items| > 0
      ensures CalcTimeIndex(normalScale, items[|items| - 1].realPosition, true) <= |items| - 1
    {
      PositionsOfIndex(items);
      var i := |items| - 1;
      assert Positions()[i] == items[i].realPosition;
      assert CalcTimeIndex(normalScale, Positions()[i], true) <= (if 0 <= Hole() < i then i - 1 else i);
    }

    /**
     * Where `preparePlay` starts playback, at the playhead or, when the
     * playhead is past the last item, at tick 0, has an item at its tick.
     */
    lemma PlayStartBound()
      requires Valid() && !isFullMode && |items| > 0
      ensures CalcTimeIndex(scale, PlayStart(), true) < |items|
    {
      var p, last := timeIndicator.realPosition, items[|items| - 1].realPosition;
      LastItemTickBound();
      if p <= last {
        CalcTimeIndexMonotone(scale, p, last, true);
      }
    }

    /** Where `preparePlay` starts: at the playhead, or at tick 0 when the playhead is past the last item. */
    function PlayStart(): real
      requires |items| > 0
      reads this`items, this`scale, items`realPosition, timeIndicator`realPosition
    {
      if timeIndicator.realPosition > items[|items| - 1].realPosition then scale.begin else timeIndicator.realPosition
    }

    /**
     * `preparePlay` (normal mode): play from `PlayStart()` up to B
     * when B is set (a lone A is cleared) or else to the last item.  Playback
     * starts at once when the start is at the screen centre; otherwise the
     * ruler first scrolls it there (`FinishCentering`).
     */
    method PreparePlay()
      requires Valid() && !isFullMode && |items| > 0
      modifies this`isNeedResetPlayIndicator, this`isCancel, this`startPlayTimePosition, this`stopPlayTimeIndex
      modifies this`startPlayTimeIndex, this`isNeedToPlay, this`centering
      modifies rangeIndicator`isIndicatorAVisible, rangeIndicator`isIndicatorBVisible
      modifies rangeIndicator.markerA`realPosition, rangeIndicator.markerA`time, rangeIndicator.markerB`realPosition, rangeIndicator.markerB`time
      modifies playIndicator`realPosition, playIndicator`time
      modifies this`startPlayRealPosition, this`playAnimating, this`animFrom, this`animTo, this`tickQueued
      modifies this`isCalledStart, this`events, timeIndicator`isVisible, playIndicator`isVisible
      ensures Valid() && !isNeedResetPlayIndicator && !isCancel
      ensures startPlayTimePosition == old(PlayStart())
      ensures playIndicator.realPosition == startPlayTimePosition
      ensures startPlayTimeIndex == CalcTimeIndex(scale, startPlayTimePosition, false)
      ensures CalcTimeIndex(scale, startPlayTimePosition, true) < |items|
      ensures old(rangeIndicator.isIndicatorBVisible) ==>
        stopPlayTimeIndex == CalcTimeIndex(scale, rangeIndicator.markerB.realPosition, true)
      ensures !old(rangeIndicator.isIndicatorBVisible) ==>
        stopPlayTimeIndex == |items| - 1 && !rangeIndicator.isIndicatorAVisible && !rangeIndicator.isIndicatorBVisible
      ensures startPlayTimePosition - currentLeft != screenCenterPosition as real ==>
        isNeedToPlay && centering == Some(startPlayTimePosition - screenCenterPosition as real) && events == old(events)
      ensures startPlayTimePosition - currentLeft == screenCenterPosition as real ==>
        isCalledStart && playIndicator.isVisible && (isAnimatorEnable ==> playAnimating) && (!isAnimatorEnable ==> tickQueued)
    {
      var start := PlayStart();
      PlayStartBound();
      PrepareFrom(start);
    }

    /** `preparePlay` from a start whose tick has an item. */
    method PrepareFrom(start: real)
      requires Valid() && |items| > 0 && CalcTimeIndex(scale, start, true) < |items|
      modifies this`isNeedResetPlayIndicator, this`isCancel, this`startPlayTimePosition, this`stopPlayTimeIndex
      modifies this`startPlayTimeIndex, this`isNeedToPlay, this`centering
      modifies rangeIndicator`isIndicatorAVisible, rangeIndicator`isIndicatorBVisible
      modifies rangeIndicator.markerA`realPosition, rangeIndicator.markerA`time, rangeIndicator.markerB`realPosition, rangeIndicator.markerB`time
      modifies playIndicator`realPosition, playIndicator`time
      modifies this`startPlayRealPosition, this`playAnimating, this`animFrom, this`animTo, this`tickQueued
      modifies this`isCalledStart, this`events, timeIndicator`isVisible, playIndicator`isVisible
      ensures Valid() && !isNeedResetPlayIndicator && !isCancel
      ensures startPlayTimePosition == start && playIndicator.realPosition == start
      ensures startPlayTimeIndex == CalcTimeIndex(scale, start, false)
      ensures old(rangeIndicator.isIndicatorBVisible) ==>
        stopPlayTimeIndex == CalcTimeIndex(scale, rangeIndicator.markerB.realPosition, true)
      ensures !old(rangeIndicator.isIndicatorBVisible) ==>
        stopPlayTimeIndex == |items| - 1 && !rangeIndicator.isIndicatorAVisible && !rangeIndicator.isIndicatorBVisible
      ensures start - currentLeft != screenCenterPosition as real ==>
        isNeedToPlay && centering == Some(start - screenCenterPosition as real) && events == old(events)
      ensures start - currentLeft == screenCenterPosition as real ==>
        isCalledStart && playIndicator.isVisible && (isAnimatorEnable ==> playAnimating) && (!isAnimatorEnable ==> tickQueued)
    {
      SetPlayRange(start);
      StartOrCenter(start);
    }

    /** The first half of `preparePlay`: the start position, the start and stop ticks, and a lone A cleared. */
    method SetPlayRange(start: real)
      requires Valid() && |items| > 0
      modifies this`isNeedResetPlayIndicator, this`isCancel
      modifies this`startPlayTimePosition, this`stopPlayTimeIndex, this`startPlayTimeIndex
      modifies rangeIndicator`isIndicatorAVisible, rangeIndicator`isIndicatorBVisible
      modifies rangeIndicator.markerA`realPosition, rangeIndicator.markerA`time, rangeIndicator.markerB`realPosition, rangeIndicator.markerB`time
      ensures Valid() && startPlayTimePosition == start && !isNeedResetPlayIndicator && !isCancel
      ensures startPlayTimeIndex == CalcTimeIndex(scale, start, false)
      ensures old(rangeIndicator.isIndicatorBVisible) ==>
        stopPlayTimeIndex == CalcTimeIndex(scale, rangeIndicator.markerB.realPosition, true)
        && unchanged(rangeIndicator`isIndicatorAVisible, rangeIndicator`isIndicatorBVisible)
        && unchanged(rangeIndicator.markerA, rangeIndicator.markerB)
      ensures !old(rangeIndicator.isIndicatorBVisible) ==>
        stopPlayTimeIndex == |items| - 1 && !rangeIndicator.isIndicatorAVisible && !rangeIndicator.isIndicatorBVisible
    {
      isNeedResetPlayIndicator, isCancel := false, false;
      startPlayTimePosition, startPlayTimeIndex := start, CalcTimeIndex(scale, start, false);
      if !rangeIndicator.isIndicatorBVisible {
        stopPlayTimeIndex := |items| - 1;
        ValidKept(this);
        HideRange();
      } else {
        stopPlayTimeIndex := CalcTimeIndex(scale, rangeIndicator.markerB.realPosition, true);
        ValidKept(this);
      }
    }

    /** The second half of `preparePlay`: the play indicator at the start, then play at once or scroll first. */
    method StartOrCenter(start: real)
      requires Valid() && CalcTimeIndex(scale, start, true) < |items|
      modifies this`isNeedToPlay, this`centering, playIndicator`realPosition, playIndicator`time
      modifies this`startPlayRealPosition, this`playAnimating, this`animFrom, this`animTo, this`tickQueued
      modifies this`isCalledStart, this`events, timeIndicator`isVisible, playIndicator`isVisible
      ensures Valid() && playIndicator.realPosition == start
      ensures start - currentLeft != screenCenterPosition as real ==>
        isNeedToPlay && centering == Some(start - screenCenterPosition as real) && events == old(events)
      ensures start - currentLeft == screenCenterPosition as real ==>
        isCalledStart && playIndicator.isVisible && (isAnimatorEnable ==> playAnimating) && (!isAnimatorEnable ==> tickQueued)
    {
      if start - currentLeft != screenCenterPosition as real {
        isNeedToPlay, centering := true, Some(start - screenCenterPosition as real);
        ValidKept(this);
        playIndicator.SetRealPosition(scale, start);
      } else {
        playIndicator.SetRealPosition(scale, start);
        DoPlay();
      }
    }

    /**
     * `resetPlayTime`: the playhead and the play indicator go back to A when a
     * range is set, else to tick 0, and the ruler starts scrolling back
     * (to put A at the screen centre, or to the start).
     */
    method ResetPlayTime()
      requires Valid()
      modifies this`isNeedToPlay, this`centering
      modifies timeIndicator`realPosition, timeIndicator`time, playIndicator`realPosition, playIndicator`time
      ensures Valid() && !isNeedToPlay
      ensures var start := if rangeIndicator.isIndicatorBVisible then rangeIndicator.markerA.realPosition else scale.begin;
        && timeIndicator.realPosition == start && playIndicator.realPosition == start
        && timeIndicator.time == CalcTimeMillisecond(scale, start, true)
        && centering == Some(if rangeIndicator.isIndicatorBVisible then start - screenCenterPosition as real else -scale.begin)
      ensures !rangeIndicator.isIndicatorBVisible ==> timeIndicator.time == 0
    {
      var start := if rangeIndicator.isIndicatorBVisible then rangeIndicator.markerA.realPosition else scale.begin;
      isNeedToPlay := false;
      centering := Some(if rangeIndicator.isIndicatorBVisible then start - screenCenterPosition as real else -scale.begin);
      CalcOfWholeMilliseconds(scale, scale.begin, true, 0);
      ValidKept(this);
      PlaceIndicators(start);
    }

    /** The play indicator and the playhead back at the start, then playback ends with `onStop`. */
    method ResetAndStop()
      requires Valid()
      modifies this`isPlaying, this`events, this`isNeedToPlay, this`centering
      modifies timeIndicator`realPosition, timeIndicator`time, playIndicator`realPosition, playIndicator`time
      ensures Valid() && !isPlaying && !isNeedToPlay && centering.Some?
      ensures timeIndicator.realPosition == (if rangeIndicator.isIndicatorBVisible then rangeIndicator.markerA.realPosition else scale.begin)
      ensures events == old(events) + [PlayStopped]
    {
      isPlaying := false;
      ValidKept(this);
      ResetPlayTime();
      Emit([PlayStopped]);
    }

    /**
     * The end of the centring animation: the ruler has scrolled to its target.
     * A pending start plays now (normal mode); a repeat posts the next
     * `preparePlay`; otherwise the playhead is shown again.
     */
    method FinishCentering()
      requires Valid() && centering.Some?
      requires isNeedToPlay && !isFullMode ==> CalcTimeIndex(scale, playIndicator.realPosition, true) < |items|
      modifies this`currentLeft, this`currentLeftIndex, this`centering, this`preparePosts
      modifies this`startPlayRealPosition, this`playAnimating, this`animFrom, this`animTo, this`tickQueued
      modifies this`isCalledStart, this`events, timeIndicator`isVisible, playIndicator`isVisible
      ensures Valid() && centering.None?
      ensures currentLeft == ClampLeft(old(centering.value), scale.ViewWidth() - layout.screenWidth as real)
      ensures isNeedToPlay && !isFullMode ==>
        isCalledStart && playIndicator.isVisible && (isAnimatorEnable ==> playAnimating) && (!isAnimatorEnable ==> tickQueued)
      ensures !isNeedToPlay && isRepeatPlay ==> preparePosts == old(preparePosts) + 1 && events == old(events)
      ensures !isNeedToPlay && !isRepeatPlay ==> timeIndicator.isVisible && !playIndicator.isVisible && events == old(events)
    {
      ScrollToCentered();
      AfterCentering();
    }

    /** The scroll of a centring animation lands on its target, clamped. */
    method ScrollToCentered()
      requires Valid() && centering.Some?
      modifies this`currentLeft, this`currentLeftIndex, this`centering
      ensures Valid() && centering.None?
      ensures currentLeft == ClampLeft(old(centering.value), scale.ViewWidth() - layout.screenWidth as real)
    {
      currentLeft, centering := centering.value, None;
      ValidKept(this);
      ComputeTime();
    }

    /** What the end of the centring animation does once the ruler has scrolled. */
    method AfterCentering()
      requires Valid()
      requires isNeedToPlay && !isFullMode ==> CalcTimeIndex(scale, playIndicator.realPosition, true) < |items|
      modifies this`preparePosts
      modifies this`startPlayRealPosition, this`playAnimating, this`animFrom, this`animTo, this`tickQueued
      modifies this`isCalledStart, this`events, timeIndicator`isVisible, playIndicator`isVisible
      ensures Valid()
      ensures isNeedToPlay && !isFullMode ==>
        isCalledStart && playIndicator.isVisible && (isAnimatorEnable ==> playAnimating) && (!isAnimatorEnable ==> tickQueued)
      ensures isNeedToPlay && isFullMode ==> events == old(events) && preparePosts == old(preparePosts)
      ensures !isNeedToPlay && isRepeatPlay ==> preparePosts == old(preparePosts) + 1 && events == old(events)
      ensures !isNeedToPlay && !isRepeatPlay ==> timeIndicator.isVisible && !playIndicator.isVisible && events == old(events)
    {
      if isNeedToPlay {
        if !isFullMode {
          DoPlay();
        }
      } else if isRepeatPlay {
        preparePosts := preparePosts + 1;
        ValidKept(this);
      } else {
        ShowPlayIndicator(false);
      }
    }

    /** The `preparePlay` a repeat posted: normal mode prepares the next round; full mode reports the stop. */
    method RunPreparePost()
      requires Valid() && preparePosts > 0
      requires !isFullMode ==> |items| > 0
      modifies this`preparePosts
      modifies this`isNeedResetPlayIndicator, this`isCancel, this`startPlayTimePosition, this`stopPlayTimeIndex
      modifies this`startPlayTimeIndex, this`isNeedToPlay, this`centering
      modifies rangeIndicator`isIndicatorAVisible, rangeIndicator`isIndicatorBVisible
      modifies rangeIndicator.markerA`realPosition, rangeIndicator.markerA`time, rangeIndicator.markerB`realPosition, rangeIndicator.markerB`time
      modifies playIndicator`realPosition, playIndicator`time
      modifies this`startPlayRealPosition, this`playAnimating, this`animFrom, this`animTo, this`tickQueued
      modifies this`isCalledStart, this`events, timeIndicator`isVisible, playIndicator`isVisible
      ensures Valid() && preparePosts == old(preparePosts) - 1
      ensures !isFullMode ==> startPlayTimePosition == old(PlayStart()) && playIndicator.realPosition == startPlayTimePosition
      ensures isFullMode ==> events == old(events) + [PlayStopped]
    {
      if !isFullMode {
        PreparePlay();
      } else {
        CheckIfNeedToContinuePlay();
      }
      TakePreparePost();
    }

    /** One posted `preparePlay` is taken from the queue. */
    method TakePreparePost()
      requires Valid() && preparePosts > 0
      modifies this`preparePosts
      ensures Valid() && preparePosts == old(preparePosts) - 1
    {
      preparePosts := preparePosts - 1;
      ValidKept(this);
    }

    // ------------------------------------------------ the stepped player

    /**
     * A message of the stepped player (`playHandler`), the player used when
     * animations are off: the next tick.  Past the stop tick nothing moves;
     * otherwise both indicators go to that tick's item and its time is
     * reported.  On reaching the stop tick (or past it) the end of playback,
     * or a repeat, is posted for 200 ms later; before it, the next message
     * is queued.
     */
    method PlayTick()
      requires Valid() && tickQueued
      requires -1 <= startPlayTimeIndex && stopPlayTimeIndex < |items|
      modifies this`startPlayTimeIndex, this`tickQueued, this`stepPost, this`currentLeft, this`currentLeftIndex, this`events
      modifies playIndicator`realPosition, playIndicator`time, timeIndicator`realPosition, timeIndicator`time
      modifies timeIndicator`isVisible, playIndicator`isVisible
      ensures Valid()
      ensures startPlayTimeIndex == old(startPlayTimeIndex) + 1
      ensures var i := startPlayTimeIndex;
        && (tickQueued <==> i < stopPlayTimeIndex)
        && (i >= stopPlayTimeIndex ==> stepPost == (if isRepeatPlay then RepeatAfterLast else StopAfterLast))
        && (i > stopPlayTimeIndex ==>
              events == old(events) && playIndicator.realPosition == old(playIndicator.realPosition))
        && (i <= stopPlayTimeIndex ==>
              && playIndicator.realPosition == CalcPosition(scale, items[i].time)
              && timeIndicator.realPosition == playIndicator.realPosition
              && events == old(events) + [PlayTimeChanged(PlayReportTime(scale, i), items[i].timeItem)])
      ensures var i := startPlayTimeIndex;
        old(OnGrid()) && !isFullMode && i <= stopPlayTimeIndex ==>
          playIndicator.realPosition == TickPosition(scale, i) && PlayReportTime(scale, i) == items[i].time
    {
      startPlayTimeIndex := startPlayTimeIndex + 1;
      ValidKept(this);
      if startPlayTimeIndex > stopPlayTimeIndex {
        PostStepEnd();
      } else {
        StepTo(startPlayTimeIndex);
      }
    }

    /** The stepped player at tick i, up to the stop tick: move there, then post the end or go on. */
    method StepTo(i: int)
      requires Valid() && tickQueued && 0 <= i <= stopPlayTimeIndex < |items|
      modifies this`tickQueued, this`stepPost, this`currentLeft, this`currentLeftIndex, this`events
      modifies playIndicator`realPosition, playIndicator`time, timeIndicator`realPosition, timeIndicator`time
      modifies timeIndicator`isVisible, playIndicator`isVisible
      ensures Valid() && (tickQueued <==> i < stopPlayTimeIndex)
      ensures i == stopPlayTimeIndex ==> stepPost == (if isRepeatPlay then RepeatAfterLast else StopAfterLast)
      ensures playIndicator.realPosition == CalcPosition(scale, items[i].time)
      ensures timeIndicator.realPosition == playIndicator.realPosition
      ensures events == old(events) + [PlayTimeChanged(PlayReportTime(scale, i), items[i].timeItem)]
      ensures old(OnGrid()) && !isFullMode ==>
        playIndicator.realPosition == TickPosition(scale, i) && PlayReportTime(scale, i) == items[i].time
    {
      AdvancePlayTo(i);
      if i == stopPlayTimeIndex {
        PostStepEnd();
      } else {
        ComputeTime();
      }
    }

    /**
     * The stepped player's move to tick i: both indicators on item i, the
     * ruler following so that they stay at most at the screen centre, the
     * tick's time reported.
     */
    method AdvancePlayTo(i: int)
      requires Valid() && 0 <= i < |items|
      modifies this`currentLeft, this`events
      modifies playIndicator`realPosition, playIndicator`time, timeIndicator`realPosition, timeIndicator`time
      ensures Valid()
      ensures playIndicator.realPosition == CalcPosition(scale, items[i].time)
      ensures timeIndicator.realPosition == playIndicator.realPosition
      ensures playIndicator.realPosition - currentLeft <= screenCenterPosition as real && currentLeft >= old(currentLeft)
      ensures events == old(events) + [PlayTimeChanged(PlayReportTime(scale, i), items[i].timeItem)]
      ensures old(OnGrid()) && !isFullMode ==>
        playIndicator.realPosition == TickPosition(scale, i) && PlayReportTime(scale, i) == items[i].time
    {
      var position := CalcPosition(scale, items[i].time);
      var changed := PlayTimeChanged(PlayReportTime(scale, i), items[i].timeItem);
      ItemTimeOnGrid(i);
      currentLeft := FollowPlayhead(position, currentLeft, screenCenterPosition as real);
      ValidKept(this);
      PlaceIndicators(position);
      Emit([changed]);
    }

    /** On the grid, item i's time is tick i's, it is drawn at tick i, and the player reports it for tick i. */
    lemma ItemTimeOnGrid(i: int)
      requires Valid() && 0 <= i < |items|
      ensures OnGrid() && !isFullMode ==>
        items[i].time == i * Quantum && CalcPosition(scale, items[i].time) == TickPosition(scale, i)
        && PlayReportTime(scale, i) == items[i].time
    {
      if OnGrid() && !isFullMode {
        PositionsOfIndex(items);
        assert Positions()[i] == TickPosition(normalScale, i);
        assert items[i].TimeMatches(normalScale);
        TickTimeCorrespondence(normalScale, i);
      }
    }

    /** The stepped player's last tick: the end of playback, or a repeat, is posted for later. */
    method PostStepEnd()
      requires Valid()
      modifies this`tickQueued, this`stepPost, timeIndicator`isVisible, playIndicator`isVisible
      ensures Valid() && !tickQueued
      ensures stepPost == (if isRepeatPlay then RepeatAfterLast else StopAfterLast)
      ensures !isRepeatPlay ==> timeIndicator.isVisible && !playIndicator.isVisible
    {
      tickQueued, stepPost := false, if isRepeatPlay then RepeatAfterLast else StopAfterLast;
      ValidKept(this);
      if !isRepeatPlay {
        ShowPlayIndicator(false);
      }
    }

    /**
     * What the stepped player posted at its last tick, 200 ms on: the playhead
     * returns to the start of the range; without repeat playback then ends
     * with `onStop`.
     */
    method RunStepPost()
      requires Valid() && !stepPost.NoStepPost?
      modifies this`stepPost, this`isPlaying, this`events, this`isNeedToPlay, this`centering
      modifies timeIndicator`realPosition, timeIndicator`time, playIndicator`realPosition, playIndicator`time
      ensures Valid() && stepPost.NoStepPost? && !isNeedToPlay && centering.Some?
      ensures timeIndicator.realPosition == (if rangeIndicator.isIndicatorBVisible then rangeIndicator.markerA.realPosition else scale.begin)
      ensures old(stepPost).StopAfterLast? ==> !isPlaying && events == old(events) + [PlayStopped]
      ensures old(stepPost).RepeatAfterLast? ==> isPlaying == old(isPlaying) && events == old(events)
    {
      var post := stepPost;
      stepPost := NoStepPost;
      ValidKept(this);
      if post.StopAfterLast? {
        ResetAndStop();
      } else {
        ResetPlayTime();
      }
    }

    // --------------------------------------------- the animated player

    /**
     * `fixTimeIndicatorOffset`, run when the play animation is cancelled: a
     * play indicator between two ticks is carried on to the next tick (or
     * back to the last item's), by an animation that is posted; one on a tick
     * stops there, with `onStop`.
     */
    method FixTimeIndicatorOffset()
      requires Valid()
      modifies this`fixPosted, this`fixTo, this`events, timeIndicator`isVisible, playIndicator`isVisible
      ensures Valid()
      ensures OffTick(scale, playIndicator.realPosition) ==>
        fixPosted && fixTo == FixTargetIndex(scale, playIndicator.realPosition, |items|) && events == old(events)
      ensures !OffTick(scale, playIndicator.realPosition) ==>
        fixPosted == old(fixPosted) && timeIndicator.isVisible && !playIndicator.isVisible
        && events == old(events) + [PlayStopped]
    {
      if OffTick(scale, playIndicator.realPosition) {
        fixTo, fixPosted := FixTargetIndex(scale, playIndicator.realPosition, |items|), true;
        ValidKept(this);
      } else {
        ShowPlayIndicator(false);
        CheckIfNeedToContinuePlay();
      }
    }

    /** The corrective animation starts (the runnable `fixTimeIndicatorOffset` posted). */
    method RunFixPost()
      requires Valid() && fixPosted
      modifies this`fixPosted, this`isNeedResetPlayIndicator, this`playAnimating
      ensures Valid() && !fixPosted && isNeedResetPlayIndicator && playAnimating
    {
      fixPosted, isNeedResetPlayIndicator, playAnimating := false, true, true;
      ValidKept(this);
    }

    /** The last frame of the corrective animation: both indicators on tick `fixTo`, the playhead reading its time. */
    method SettleOnFixTarget()
      requires Valid()
      modifies playIndicator`realPosition, playIndicator`time, timeIndicator`realPosition, timeIndicator`time
      ensures Valid()
      ensures playIndicator.realPosition == TickPosition(scale, fixTo) && timeIndicator.realPosition == playIndicator.realPosition
      ensures !isFullMode && fixTo >= 0 ==> timeIndicator.time == fixTo * Quantum && PlayheadOnTick()
    {
      TickFacts(fixTo);
      PlaceIndicators(TickPosition(scale, fixTo));
    }

    /** In normal mode tick k (k >= 0) reads back as time k·200 ms and as tick k. */
    lemma TickFacts(k: int)
      requires Valid()
      ensures !isFullMode && k >= 0 ==>
        CalcTimeMillisecond(scale, TickPosition(scale, k), true) == k * Quantum
        && CalcTimeIndex(normalScale, TickPosition(normalScale, k), true) == k
    {
      if !isFullMode && k >= 0 {
        TickTimeCorrespondence(scale, k);
        CalcRoundTrip(scale, k * Quantum, true);
        TickIndexOfTickPosition(scale, k, true);
      }
    }

    /**
     * The play animation's `onEnd`: after a natural end the return to the
     * start is posted (500 ms on); after the corrective animation the playhead
     * is shown again and `onStop` fires; after a plain cancel nothing happens.
     */
    method AnimationEnded()
      requires Valid()
      modifies this`animEndPosts, this`events, timeIndicator`isVisible, playIndicator`isVisible
      ensures Valid()
      ensures !isCancel ==> animEndPosts == old(animEndPosts) + 1 && events == old(events)
      ensures isCancel && isNeedResetPlayIndicator ==>
        animEndPosts == old(animEndPosts) && timeIndicator.isVisible && !playIndicator.isVisible
        && events == old(events) + [PlayStopped]
      ensures isCancel && !isNeedResetPlayIndicator ==>
        animEndPosts == old(animEndPosts) && events == old(events)
        && playIndicator.isVisible == old(playIndicator.isVisible) && timeIndicator.isVisible == old(timeIndicator.isVisible)
    {
      if !isCancel {
        animEndPosts := animEndPosts + 1;
        ValidKept(this);
      } else if isNeedResetPlayIndicator {
        ShowPlayIndicator(false);
        CheckIfNeedToContinuePlay();
      }
    }

    /** The play animation runs to its end; the corrective one leaves both indicators on its target tick. */
    method FinishPlayAnimation()
      requires Valid() && playAnimating
      modifies this`playAnimating, this`animEndPosts, this`events
      modifies playIndicator`realPosition, playIndicator`time, timeIndicator`realPosition, timeIndicator`time
      modifies timeIndicator`isVisible, playIndicator`isVisible
      ensures Valid() && !playAnimating
      ensures !isCancel ==> animEndPosts == old(animEndPosts) + 1 && events == old(events)
      ensures isCancel && isNeedResetPlayIndicator ==>
        && timeIndicator.realPosition == TickPosition(scale, fixTo)
        && (!isFullMode && fixTo >= 0 ==> timeIndicator.time == fixTo * Quantum)
        && timeIndicator.isVisible && !playIndicator.isVisible
        && events == old(events) + [PlayStopped]
    {
      playAnimating := false;
      ValidKept(this);
      if isCancel && isNeedResetPlayIndicator {
        SettleOnFixTarget();
      }
      AnimationEnded();
    }

    /**
     * `playAnimator.cancel()`: when the play animation runs it stops
     * (`onCancel` marks the cancel and fixes the offset), then its `onEnd`
     * runs; an animator that does not run ignores the call.
     */
    method CancelPlayAnimation()
      requires Valid()
      modifies this`playAnimating, this`isCancel, this`fixPosted, this`fixTo, this`animEndPosts, this`events
      modifies timeIndicator`isVisible, playIndicator`isVisible
      ensures Valid() && !playAnimating
      ensures !old(playAnimating) ==> isCancel == old(isCancel) && fixPosted == old(fixPosted) && events == old(events)
      ensures old(playAnimating) ==> isCancel && animEndPosts == old(animEndPosts)
      ensures old(playAnimating) && OffTick(scale, playIndicator.realPosition) ==>
        fixPosted && fixTo == FixTargetIndex(scale, playIndicator.realPosition, |items|)
      ensures old(playAnimating) && !OffTick(scale, playIndicator.realPosition) ==>
        timeIndicator.isVisible && !playIndicator.isVisible
        && events == old(events) + [PlayStopped] + (if isNeedResetPlayIndicator then [PlayStopped] else [])
    {
      if playAnimating {
        StopAnimator();
        AnimationEnded();
      }
    }

    /** The animator stopped by `cancel`: the cancel handler runs and settles the play indicator. */
    method StopAnimator()
      requires Valid()
      modifies this`playAnimating, this`isCancel, this`fixPosted, this`fixTo, this`events
      modifies timeIndicator`isVisible, playIndicator`isVisible
      ensures Valid() && !playAnimating && isCancel
      ensures OffTick(scale, playIndicator.realPosition) ==>
        fixPosted && fixTo == FixTargetIndex(scale, playIndicator.realPosition, |items|) && events == old(events)
      ensures !OffTick(scale, playIndicator.realPosition) ==>
        fixPosted == old(fixPosted) && timeIndicator.isVisible && !playIndicator.isVisible
        && events == old(events) + [PlayStopped]
    {
      playAnimating, isCancel := false, true;
      ValidKept(this);
      FixTimeIndicatorOffset();
    }

    /**
     * What the end of an uncancelled play animation posted, 500 ms on: a
     * repeat returns to the start (normal mode); otherwise playback ends, the
     * playhead returns to the start and `onStop` fires.
     */
    method RunAnimEndPost()
      requires Valid() && animEndPosts > 0
      modifies this`animEndPosts, this`isPlaying, this`events, this`isNeedToPlay, this`centering
      modifies timeIndicator`realPosition, timeIndicator`time, playIndicator`realPosition, playIndicator`time
      modifies timeIndicator`isVisible, playIndicator`isVisible
      ensures Valid() && animEndPosts == old(animEndPosts) - 1
      ensures isRepeatPlay && !isFullMode ==> centering.Some? && events == old(events)
      ensures isRepeatPlay && isFullMode ==> events == old(events) + [PlayStopped]
      ensures !isRepeatPlay ==>
        !isPlaying && centering.Some? && timeIndicator.isVisible && !playIndicator.isVisible
        && events == old(events) + [PlayStopped]
    {
      animEndPosts := animEndPosts - 1;
      ValidKept(this);
      if isRepeatPlay {
        RepeatAfterAnimation();
      } else {
        EndAfterAnimation();
      }
    }

    /** A repeat after the play animation: back to the start in normal mode; in full mode only `onStop`. */
    method RepeatAfterAnimation()
      requires Valid()
      modifies this`events, this`isNeedToPlay, this`centering
      modifies timeIndicator`realPosition, timeIndicator`time, playIndicator`realPosition, playIndicator`time
      ensures Valid()
      ensures !isFullMode ==> centering.Some? && !isNeedToPlay && events == old(events)
      ensures isFullMode ==> events == old(events) + [PlayStopped]
    {
      if !isFullMode {
        ResetPlayTime();
      } else {
        CheckIfNeedToContinuePlay();
      }
    }

    /** The end of playback after the play animation: the playhead is shown at the start again and `onStop` fires. */
    method EndAfterAnimation()
      requires Valid()
      modifies this`isPlaying, this`events, this`isNeedToPlay, this`centering
      modifies timeIndicator`realPosition, timeIndicator`time, playIndicator`realPosition, playIndicator`time
      modifies timeIndicator`isVisible, playIndicator`isVisible
      ensures Valid() && !isPlaying && centering.Some? && timeIndicator.isVisible && !playIndicator.isVisible
      ensures timeIndicator.realPosition == (if rangeIndicator.isIndicatorBVisible then rangeIndicator.markerA.realPosition else scale.begin)
      ensures events == old(events) + [PlayStopped]
    {
      ShowPlayIndicator(false);
      ResetAndStop();
    }

    // ------------------------------------------------ the public controls

    /**
     * `play`: ignored without items or while playing.  Otherwise a new
     * session starts, in which `onStart` has not fired yet, and playback is
     * prepared (normal mode) or starts at once (full mode).  Whether
     * animations are on is the input `animatorEnabled`.
     */
    method Play(isRepeat: bool, animatorEnabled: bool)
      requires Valid()
      requires isFullMode && |items| > 0 && !isPlaying ==> FullStartFound()
      modifies this`isAnimatorEnable, this`isRepeatPlay, this`isPlaying, this`isCalledStart, this`startMark
      modifies this`isNeedResetPlayIndicator, this`isCancel, this`startPlayTimePosition, this`stopPlayTimeIndex
      modifies this`startPlayTimeIndex, this`isNeedToPlay, this`centering
      modifies rangeIndicator`isIndicatorAVisible, rangeIndicator`isIndicatorBVisible
      modifies rangeIndicator.markerA`realPosition, rangeIndicator.markerA`time, rangeIndicator.markerB`realPosition, rangeIndicator.markerB`time
      modifies playIndicator`realPosition, playIndicator`time
      modifies this`startPlayRealPosition, this`playAnimating, this`animFrom, this`animTo, this`tickQueued
      modifies this`events, timeIndicator`isVisible, playIndicator`isVisible
      modifies this`startPlayTimePositionInFullMode, this`startPlayTimePositionInFullModeIndex
      modifies this`endPlayTimePositionInFullMode, this`endPlayTimePositionInFullModeIndex, this`fullTickQueued
      ensures Valid()
      ensures old(|items| == 0 || isPlaying) ==>
        unchanged(this) && unchanged(timeIndicator, playIndicator, rangeIndicator, rangeIndicator.markerA, rangeIndicator.markerB)
      ensures !old(|items| == 0 || isPlaying) ==>
        && isPlaying && isRepeatPlay == isRepeat && isAnimatorEnable == animatorEnabled
        && startMark == old(|events|)
      ensures !old(|items| == 0 || isPlaying) ==> old(|items|) > 0 && PlayerStarted(old(PlayStart()), old(events))
    {
      if |items| == 0 || isPlaying {
        return;
      }
      StartSession(isRepeat, animatorEnabled);
    }

    /** `play` past its guards: a new session, then the player of the current mode. */
    method StartSession(isRepeat: bool, animatorEnabled: bool)
      requires Valid() && |items| > 0
      requires isFullMode ==> FullStartFound()
      modifies this`isAnimatorEnable, this`isRepeatPlay, this`isPlaying, this`isCalledStart, this`startMark
      modifies this`isNeedResetPlayIndicator, this`isCancel, this`startPlayTimePosition, this`stopPlayTimeIndex
      modifies this`startPlayTimeIndex, this`isNeedToPlay, this`centering
      modifies rangeIndicator`isIndicatorAVisible, rangeIndicator`isIndicatorBVisible
      modifies rangeIndicator.markerA`realPosition, rangeIndicator.markerA`time, rangeIndicator.markerB`realPosition, rangeIndicator.markerB`time
      modifies playIndicator`realPosition, playIndicator`time
      modifies this`startPlayRealPosition, this`playAnimating, this`animFrom, this`animTo, this`tickQueued
      modifies this`events, timeIndicator`isVisible, playIndicator`isVisible
      modifies this`startPlayTimePositionInFullMode, this`startPlayTimePositionInFullModeIndex
      modifies this`endPlayTimePositionInFullMode, this`endPlayTimePositionInFullModeIndex, this`fullTickQueued
      ensures Valid() && isPlaying && isRepeatPlay == isRepeat && isAnimatorEnable == animatorEnabled
      ensures startMark == old(|events|)
      ensures PlayerStarted(old(PlayStart()), old(events))
    {
      ghost var start, before := PlayStart(), events;
      BeginSession(isRepeat, animatorEnabled);
      assert PlayStart() == start && events == before;
      RunPlayer();
    }

    /**
     * The player of the mode started from `start` (the ruler's events being
     * `before`): in normal mode the play indicator is on `start`; in full mode
     * `onStart` fired and the time of the round's first item was reported,
     * with the play indicator shown and the player's first message queued.
     */
    ghost predicate PlayerStarted(start: real, before: seq<Event>)
      reads this`isFullMode, this`startPlayTimePosition, playIndicator`realPosition, this`isCalledStart, this`fullTickQueued
      reads playIndicator`isVisible, timeIndicator`isVisible, this`startPlayTimePositionInFullModeIndex
      reads this`items, items`time, this`events
    {
      && (!isFullMode ==> startPlayTimePosition == start && playIndicator.realPosition == start)
      && (isFullMode ==>
            && isCalledStart && fullTickQueued && playIndicator.isVisible && !timeIndicator.isVisible
            && 0 <= startPlayTimePositionInFullModeIndex < |items|
            && events == before + [PlayStarted, PlayTimeChanged(items[startPlayTimePositionInFullModeIndex].time,
                                                                items[startPlayTimePositionInFullModeIndex].timeItem)])
    }

    /** The player of the current mode: `preparePlay` in normal mode, `playInFullMode` in full mode. */
    method RunPlayer()
      requires Valid() && |items| > 0 && isPlaying && !isCalledStart
      requires isFullMode ==> FullStartFound()
      modifies this`isNeedResetPlayIndicator, this`isCancel, this`startPlayTimePosition, this`stopPlayTimeIndex
      modifies this`startPlayTimeIndex, this`isNeedToPlay, this`centering, this`isPlaying
      modifies rangeIndicator`isIndicatorAVisible, rangeIndicator`isIndicatorBVisible
      modifies rangeIndicator.markerA`realPosition, rangeIndicator.markerA`time, rangeIndicator.markerB`realPosition, rangeIndicator.markerB`time
      modifies playIndicator`realPosition, playIndicator`time
      modifies this`startPlayRealPosition, this`playAnimating, this`animFrom, this`animTo, this`tickQueued
      modifies this`isCalledStart, this`events, timeIndicator`isVisible, playIndicator`isVisible
      modifies this`startPlayTimePositionInFullMode, this`startPlayTimePositionInFullModeIndex
      modifies this`endPlayTimePositionInFullMode, this`endPlayTimePositionInFullModeIndex, this`fullTickQueued
      ensures Valid() && isPlaying
      ensures PlayerStarted(old(PlayStart()), old(events))
    {
      if !isFullMode {
        PreparePlay();
      } else {
        PlayInFullMode();
      }
    }

    /** The flags `play` sets: playing, in a session in which `onStart` has not fired yet. */
    method BeginSession(isRepeat: bool, animatorEnabled: bool)
      requires Valid()
      modifies this`isAnimatorEnable, this`isRepeatPlay, this`isPlaying, this`isCalledStart, this`startMark
      ensures Valid() && isPlaying && !isCalledStart && startMark == |events|
      ensures isAnimatorEnable == animatorEnabled && isRepeatPlay == isRepeat
    {
      isAnimatorEnable, isRepeatPlay, isPlaying, isCalledStart := animatorEnabled, isRepeat, true, false;
      startMark := |events|;
      assert events[startMark..] == [];
      LogKept(this);
    }

    /**
     * `stopPlay`: ignored unless playing.  The session ends.  In normal mode
     * the play animation is cancelled (its cancel handler settles the play
     * indicator), or the stepped player's pending messages are dropped and
     * the playhead is shown again, with no `onStop`; in full mode the
     * full-mode player stops and `onStop` fires.
     */
    method StopPlay()
      requires Valid()
      modifies this`isPlaying, this`isRepeatPlay, this`isNeedToPlay, this`isCalledStart, this`startMark
      modifies this`tickQueued, this`stepPost, this`fullTickQueued
      modifies this`playAnimating, this`isCancel, this`fixPosted, this`fixTo, this`animEndPosts, this`events
      modifies timeIndicator`isVisible, playIndicator`isVisible
      ensures Valid()
      ensures !old(isPlaying) ==> unchanged(this) && unchanged(timeIndicator, playIndicator)
      ensures old(isPlaying) ==> !isPlaying && !isRepeatPlay && !isNeedToPlay && !isCalledStart
      ensures old(isPlaying) && !isFullMode && !isAnimatorEnable ==>
        && !tickQueued && stepPost.NoStepPost? && timeIndicator.isVisible && !playIndicator.isVisible
        && events == old(events)
      ensures old(isPlaying) && !isFullMode && isAnimatorEnable ==>
        && !playAnimating && (old(playAnimating) ==> isCancel)
        && (!old(playAnimating) ==> events == old(events))
      ensures old(isPlaying) && isFullMode ==>
        && !fullTickQueued && timeIndicator.isVisible && !playIndicator.isVisible
        && events == old(events) + [PlayStopped]
    {
      if !isPlaying {
        return;
      }
      EndSession();
      StopPlayer();
    }

    /** The player of the current mode stopped: the animation cancelled, the stepped player's messages dropped, or the full-mode player stopped. */
    method StopPlayer()
      requires Valid()
      modifies this`tickQueued, this`stepPost, this`fullTickQueued
      modifies this`playAnimating, this`isCancel, this`fixPosted, this`fixTo, this`animEndPosts, this`events
      modifies timeIndicator`isVisible, playIndicator`isVisible
      ensures Valid()
      ensures !isFullMode && !isAnimatorEnable ==>
        && !tickQueued && stepPost.NoStepPost? && timeIndicator.isVisible && !playIndicator.isVisible
        && events == old(events)
      ensures !isFullMode && isAnimatorEnable ==>
        && !playAnimating && (old(playAnimating) ==> isCancel)
        && (!old(playAnimating) ==> events == old(events))
      ensures isFullMode ==>
        && !fullTickQueued && timeIndicator.isVisible && !playIndicator.isVisible
        && events == old(events) + [PlayStopped]
    {
      if !isFullMode {
        if isAnimatorEnable {
          CancelPlayAnimation();
        } else {
          DropStepMessages();
        }
      } else {
        StopPlayInFullMode();
      }
    }

    /** The flags `stopPlay` clears: no playback, no repeat, nothing to start, no `onStart` in the session. */
    method EndSession()
      requires Valid()
      modifies this`isPlaying, this`isRepeatPlay, this`isNeedToPlay, this`isCalledStart, this`startMark
      ensures Valid() && !isPlaying && !isRepeatPlay && !isNeedToPlay && !isCalledStart && startMark == |events|
    {
      isPlaying, isRepeatPlay, isNeedToPlay, isCalledStart := false, false, false, false;
      startMark := |events|;
      assert events[startMark..] == [];
      LogKept(this);
    }

    /** `playHandler.removeCallbacksAndMessages(null)`: no next step and no posted end; the playhead is shown again. */
    method DropStepMessages()
      requires Valid()
      modifies this`tickQueued, this`stepPost, timeIndicator`isVisible, playIndicator`isVisible
      ensures Valid() && !tickQueued && stepPost.NoStepPost?
      ensures timeIndicator.isVisible && !playIndicator.isVisible
    {
      tickQueued, stepPost := false, NoStepPost;
      ValidKept(this);
      ShowPlayIndicator(false);
    }

    /** `stopPlayInFullMode`: the full-mode player's messages are dropped, the playhead is shown, and `onStop` fires. */
    method StopPlayInFullMode()
      requires Valid()
      modifies this`fullTickQueued, this`events, timeIndicator`isVisible, playIndicator`isVisible
      ensures Valid() && !fullTickQueued && timeIndicator.isVisible && !playIndicator.isVisible
      ensures events == old(events) + [PlayStopped]
    {
      fullTickQueued := false;
      ValidKept(this);
      ShowPlayIndicator(false);
      Emit([PlayStopped]);
    }

    /**
     * `reset`: ignored while playing.  Otherwise the list is emptied (an add
     * or delete in progress is dropped), the ruler scrolls back to its start,
     * the playhead returns to tick 0 (its listener reports time 0 with no
     * item, unless it last reported time 0) and a shown range is cleared.
     */
    method Reset()
      requires Valid()
      modifies this`items, this`currentLeft, this`currentLeftIndex, this`isOperating, this`operation
      modifies this`isTimeChanged, this`events
      modifies timeIndicator`realPosition, timeIndicator`currentPosition, timeIndicator`time, timeIndicator`oldMillisecond
      modifies rangeIndicator`isIndicatorAVisible, rangeIndicator`isIndicatorBVisible
      modifies rangeIndicator.markerA`realPosition, rangeIndicator.markerA`time, rangeIndicator.markerB`realPosition, rangeIndicator.markerB`time
      ensures Valid()
      ensures old(isPlaying) ==>
        unchanged(this) && unchanged(timeIndicator, rangeIndicator, rangeIndicator.markerA, rangeIndicator.markerB)
      ensures !old(isPlaying) ==>
        && items == [] && !isOperating && OnGrid()
        && currentLeft == ClampLeft(0.0, scale.ViewWidth() - layout.screenWidth as real)
        && timeIndicator.realPosition == scale.begin && timeIndicator.time == 0
        && !rangeIndicator.isIndicatorAVisible && !rangeIndicator.isIndicatorBVisible
        && events == old(events) + (if old(timeIndicator.oldMillisecond) != 0
                                    then [TimeChanged(0, None), SelectedStateChanged(false, None)] else [])
    {
      if isPlaying {
        return;
      }
      ClearItems();
      ResetPlayhead();
      ClearRangeAndScroll();
    }

    /** The list emptied, no add or delete in progress, the ruler at scroll offset 0. */
    method ClearItems()
      requires Valid()
      modifies this`items, this`currentLeft, this`isOperating, this`operation
      ensures Valid() && items == [] && !isOperating && currentLeft == 0.0
    {
      items, currentLeft, isOperating, operation := [], 0.0, false, Idle;
    }

    /** `timeIndicator.reset()` with the ruler at offset 0 and no items: tick 0, reported if it is news. */
    method ResetPlayhead()
      requires Valid() && items == [] && currentLeft == 0.0
      modifies this`isTimeChanged, this`events
      modifies timeIndicator`realPosition, timeIndicator`currentPosition, timeIndicator`time, timeIndicator`oldMillisecond
      ensures Valid() && timeIndicator.realPosition == scale.begin && timeIndicator.time == 0
      ensures events == old(events) + (if old(timeIndicator.oldMillisecond) != 0
                                       then [TimeChanged(0, None), SelectedStateChanged(false, None)] else [])
    {
      SnapAtRulerStart(View());
      var _ := UpdatePlayhead(0.0);
      timeIndicator.realPosition, timeIndicator.time := scale.begin, 0;
    }

    /** The end of `reset`: a shown range cleared, the scroll offset clamped. */
    method ClearRangeAndScroll()
      requires Valid()
      modifies this`currentLeft, this`currentLeftIndex
      modifies rangeIndicator`isIndicatorAVisible, rangeIndicator`isIndicatorBVisible
      modifies rangeIndicator.markerA`realPosition, rangeIndicator.markerA`time, rangeIndicator.markerB`realPosition, rangeIndicator.markerB`time
      ensures Valid() && !rangeIndicator.isIndicatorAVisible && !rangeIndicator.isIndicatorBVisible
      ensures currentLeft == ClampLeft(old(currentLeft), scale.ViewWidth() - layout.screenWidth as real)
    {
      if rangeIndicator.isIndicatorAVisible {
        rangeIndicator.Reset(scale);
      }
      ComputeTime();
    }

    /**
     * `setRangATime`: A goes to the playhead and `onSetA` fires, unless the
     * ruler plays, has no items, or the playhead's (truncated) time is past
     * the last item's.
     */
    method SetRangeATime()
      requires Valid()
      modifies rangeIndicator`isIndicatorAVisible, rangeIndicator.markerA`realPosition, rangeIndicator.markerA`time, this`events
      ensures Valid()
      ensures var p := timeIndicator.realPosition;
        if isPlaying || |items| == 0 || CalcTimeMillisecond(scale, p, false) > LastItemTime() then
          unchanged(rangeIndicator, rangeIndicator.markerA) && events == old(events)
        else
          && rangeIndicator.isIndicatorAVisible && rangeIndicator.markerA.realPosition == p
          && rangeIndicator.markerA.time == CalcTimeMillisecond(scale, p, true)
          && events == old(events) + [RangeASet]
    {
      if isPlaying || |items| == 0 || CalcTimeMillisecond(scale, timeIndicator.realPosition, false) > LastItemTime() {
        return;
      }
      rangeIndicator.SetATime(scale, timeIndicator.realPosition);
      Emit([RangeASet]);
    }

    /**
     * `setRangeBTime`: under the same guards as A, B goes to the playhead
     * when A is shown (B is ignored otherwise); `onSetB` fires either way.
     */
    method SetRangeBTime()
      requires Valid()
      modifies rangeIndicator`isIndicatorBVisible, rangeIndicator.markerB`realPosition, rangeIndicator.markerB`time, this`events
      ensures Valid()
      ensures var p := timeIndicator.realPosition;
        if isPlaying || |items| == 0 || CalcTimeMillisecond(scale, p, false) > LastItemTime() then
          unchanged(rangeIndicator, rangeIndicator.markerB) && events == old(events)
        else
          && (rangeIndicator.isIndicatorAVisible ==>
                rangeIndicator.isIndicatorBVisible && rangeIndicator.markerB.realPosition == p
                && rangeIndicator.markerB.time == CalcTimeMillisecond(scale, p, true))
          && (!rangeIndicator.isIndicatorAVisible ==> unchanged(rangeIndicator, rangeIndicator.markerB))
          && events == old(events) + [RangeBSet]
    {
      if isPlaying || |items| == 0 || CalcTimeMillisecond(scale, timeIndicator.realPosition, false) > LastItemTime() {
        return;
      }
      rangeIndicator.SetBTime(scale, timeIndicator.realPosition);
      Emit([RangeBSet]);
    }

    /**
     * With the playhead on a tick and the items on the grid, the guard of
     * `setRangATime`/`setRangeBTime` admits exactly the ticks that carry an
     * item, and the marker's (rounded) time is the tick's, the one checked.
     */
    lemma RangeSetAdmitsItemTicks()
      requires Valid() && !isFullMode && OnGrid() && PlayheadOnTick() && |items| > 0
      ensures var p := timeIndicator.realPosition;
        && (CalcTimeMillisecond(scale, p, false) <= LastItemTime() <==> CalcTimeIndex(scale, p, true) < |items|)
        && CalcTimeMillisecond(scale, p, true) == CalcTimeMillisecond(scale, p, false)
    {
      var k := CalcTimeIndex(scale, timeIndicator.realPosition, true);
      TickTimeCorrespondence(scale, k);
      CalcRoundTrip(scale, k * Quantum, true);
      ItemTimeIsTickTime(|items| - 1);
    }

    /** `resetTimeRange`: ignored while playing; otherwise both markers are hidden on tick 0 and `onReset` fires. */
    method ResetTimeRange()
      requires Valid()
      modifies rangeIndicator`isIndicatorAVisible, rangeIndicator`isIndicatorBVisible
      modifies rangeIndicator.markerA`realPosition, rangeIndicator.markerA`time, rangeIndicator.markerB`realPosition, rangeIndicator.markerB`time
      modifies this`events
      ensures Valid()
      ensures isPlaying ==> unchanged(rangeIndicator, rangeIndicator.markerA, rangeIndicator.markerB) && events == old(events)
      ensures !isPlaying ==>
        && !rangeIndicator.isIndicatorAVisible && !rangeIndicator.isIndicatorBVisible
        && rangeIndicator.markerA.realPosition == scale.begin && rangeIndicator.markerB.realPosition == scale.begin
        && rangeIndicator.markerA.time == 0 && rangeIndicator.markerB.time == 0
        && events == old(events) + [RangeReset]
    {
      if isPlaying {
        return;
      }
      rangeIndicator.Reset(scale);
      Emit([RangeReset]);
    }

    /** `getCurrentTime`: the playhead's time, rounded to the 200 ms grid. */
    function CurrentTime(): (t: int)
      reads this`scale, timeIndicator`realPosition
      ensures t % Quantum == 0
      ensures timeIndicator.realPosition >= scale.begin && scale.timeOfPerPixel > 0.0 ==> t >= 0
    {
      CalcTimeMillisecond(scale, timeIndicator.realPosition, true)
    }

    /** On the grid, item i carries tick i's time, whatever the mode. */
    lemma ItemTimeIsTickTime(i: int)
      requires Valid() && OnGrid() && 0 <= i < |items|
      ensures items[i].time == i * Quantum
    {
      PositionsOfIndex(items);
      assert Positions()[i] == TickPosition(normalScale, i);
      assert items[i].TimeMatches(normalScale);
      TickTimeCorrespondence(normalScale, i);
    }

    // ------------------------------------------------ the full-mode player

    /**
     * The item lookup `playInFullMode` makes for a start at real position p
     * succeeds: the time of p (rounded) is past the last item's, so playback
     * starts over at item 0, or some item has that time.
     */
    ghost predicate StartFoundAt(p: real)
      reads this`scale, this`items, items`time
    {
      var t := CalcTimeMillisecond(scale, p, true);
      && |items| > 0 && scale.timeOfPerPixel > 0.0
      && (CalcPosition(scale, t) > CalcPosition(scale, items[|items| - 1].time)
          || exists i | 0 <= i < |items| :: items[i].time == t)
    }

    /** `playInFullMode` finds the item under the playhead, or starts over. */
    ghost predicate FullStartFound()
      reads this`scale, this`items, items`time, timeIndicator`realPosition
    {
      StartFoundAt(timeIndicator.realPosition)
    }

    /** A repeat of the full-mode player finds its start again: at A when a range is set, else at item 0. */
    ghost predicate RepeatStartFound()
      reads this`scale, this`items, items`time, rangeIndicator`isIndicatorAVisible, rangeIndicator`isIndicatorBVisible
      reads rangeIndicator.markerA`realPosition
    {
      rangeIndicator.isIndicatorAVisible && rangeIndicator.isIndicatorBVisible ==> StartFoundAt(rangeIndicator.markerA.realPosition)
    }

    /**
     * With the items on the grid, any start at or right of tick 0 is found:
     * every aligned time up to the last item's is some item's time.
     */
    lemma StartFoundOnGrid(p: real)
      requires Valid() && OnGrid() && |items| > 0 && p >= scale.begin
      ensures StartFoundAt(p)
    {
      var t := CalcTimeMillisecond(scale, p, true);
      var n := |items|;
      ItemTimeIsTickTime(n - 1);
      if CalcPosition(scale, t) <= CalcPosition(scale, items[n - 1].time) {
        CalcPositionOrder(scale, t, items[n - 1].time);
        var j := t / Quantum;
        ItemTimeIsTickTime(j);
        assert items[j].time == t;
      }
    }

    /** The first item's own position is always found: its time reads back as itself. */
    lemma FirstItemStartFound()
      requires Valid() && |items| > 0
      ensures StartFoundAt(CalcPosition(scale, items[0].time))
    {
      assert items[0].TimeMatches(normalScale);
      CalcRoundTrip(scale, items[0].time, true);
    }

    /**
     * `playInFullMode`: play from the item under the playhead (from item 0
     * when the playhead is past the last item) up to B when B is set (a lone
     * A is cleared) or else to the last item.  The play indicator replaces
     * the playhead, `onStart` fires once per session, the first item's time
     * is reported, and the full-mode player's first message is queued.
     */
    method PlayInFullMode()
      requires Valid() && FullStartFound()
      modifies this`isPlaying, timeIndicator`isVisible, playIndicator`isVisible
      modifies this`startPlayTimePositionInFullMode, this`startPlayTimePositionInFullModeIndex
      modifies this`endPlayTimePositionInFullMode, this`endPlayTimePositionInFullModeIndex
      modifies rangeIndicator`isIndicatorAVisible, rangeIndicator`isIndicatorBVisible
      modifies rangeIndicator.markerA`realPosition, rangeIndicator.markerA`time, rangeIndicator.markerB`realPosition, rangeIndicator.markerB`time
      modifies playIndicator`realPosition, playIndicator`time, this`isCalledStart, this`events, this`fullTickQueued
      ensures Valid() && isPlaying && isCalledStart && fullTickQueued && playIndicator.isVisible && !timeIndicator.isVisible
      ensures 0 <= startPlayTimePositionInFullModeIndex < |items|
      ensures playIndicator.realPosition == startPlayTimePositionInFullMode
      ensures var i := startPlayTimePositionInFullModeIndex;
        events == old(events) + (if old(isCalledStart) then [] else [PlayStarted]) + [PlayTimeChanged(items[i].time, items[i].timeItem)]
    {
      SetFullModeRange();
      AnnounceFullPlay();
    }

    /** The start and the end of the full-mode round, by item index and by position. */
    method SetFullModeRange()
      requires Valid() && FullStartFound()
      modifies this`startPlayTimePositionInFullMode, this`startPlayTimePositionInFullModeIndex
      modifies this`endPlayTimePositionInFullMode, this`endPlayTimePositionInFullModeIndex
      modifies rangeIndicator`isIndicatorAVisible, rangeIndicator`isIndicatorBVisible
      modifies rangeIndicator.markerA`realPosition, rangeIndicator.markerA`time, rangeIndicator.markerB`realPosition, rangeIndicator.markerB`time
      ensures Valid()
      ensures FullStartAt() && FullEndAt()
      ensures rangeIndicator.isIndicatorBVisible == old(rangeIndicator.isIndicatorBVisible)
    {
      SetFullModeStart();
      SetFullModeEnd(CalcPosition(scale, items[|items| - 1].time));
    }

    /** The start of the full-mode round: the item at the playhead's rounded time, or item 0 past the last item. */
    method SetFullModeStart()
      requires Valid() && FullStartFound()
      modifies this`startPlayTimePositionInFullMode, this`startPlayTimePositionInFullModeIndex
      ensures Valid()
      ensures FullStartAt()
    {
      var t := CalcTimeMillisecond(scale, timeIndicator.realPosition, true);
      var start := CalcPosition(scale, t);
      var startIndex := GetTimeItemIndex(t);
      var last := CalcPosition(scale, items[|items| - 1].time);
      if start > last {
        start, startIndex := 0.0, 0;
      }
      SetRoundStart(start, startIndex);
    }

    /** The full-mode round's start, by position and by item index. */
    method SetRoundStart(start: real, startIndex: int)
      requires Valid()
      modifies this`startPlayTimePositionInFullMode, this`startPlayTimePositionInFullModeIndex
      ensures Valid() && startPlayTimePositionInFullMode == start && startPlayTimePositionInFullModeIndex == startIndex
    {
      startPlayTimePositionInFullMode, startPlayTimePositionInFullModeIndex := start, startIndex;
      ValidKept(this);
    }

    /**
     * The start of a full-mode round from the playhead's rounded time t: t's
     * item, or position 0 and item 0 when t lies right of the last item.
     */
    ghost predicate FullStartAt()
      reads this`scale, this`items, items`time, this`startPlayTimePositionInFullMode, this`startPlayTimePositionInFullModeIndex
      reads timeIndicator`realPosition
    {
      var t := CalcTimeMillisecond(scale, timeIndicator.realPosition, true);
      && scale.timeOfPerPixel > 0.0
      && 0 <= startPlayTimePositionInFullModeIndex < |items|
      && (CalcPosition(scale, t) > CalcPosition(scale, items[|items| - 1].time) ==>
            startPlayTimePositionInFullMode == 0.0 && startPlayTimePositionInFullModeIndex == 0)
      && (CalcPosition(scale, t) <= CalcPosition(scale, items[|items| - 1].time) ==>
            startPlayTimePositionInFullMode == CalcPosition(scale, t) && items[startPlayTimePositionInFullModeIndex].time == t)
    }

    /**
     * The end of a full-mode round: with B set, B's truncated time and its
     * item (-1 when no item has it); otherwise the last item, with the range
     * cleared.
     */
    ghost predicate FullEndAt()
      reads this`scale, this`items, items`time, this`endPlayTimePositionInFullMode, this`endPlayTimePositionInFullModeIndex
      reads rangeIndicator`isIndicatorAVisible, rangeIndicator`isIndicatorBVisible, rangeIndicator.markerB`realPosition
    {
      && |items| > 0 && scale.timeOfPerPixel > 0.0
      && (rangeIndicator.isIndicatorBVisible ==>
            var endTime := CalcTimeMillisecond(scale, rangeIndicator.markerB.realPosition, false);
            && endPlayTimePositionInFullMode == CalcPosition(scale, endTime)
            && -1 <= endPlayTimePositionInFullModeIndex < |items|
            && (endPlayTimePositionInFullModeIndex >= 0 ==> items[endPlayTimePositionInFullModeIndex].time == endTime))
      && (!rangeIndicator.isIndicatorBVisible ==>
            && endPlayTimePositionInFullMode == CalcPosition(scale, items[|items| - 1].time)
            && endPlayTimePositionInFullModeIndex == |items| - 1
            && !rangeIndicator.isIndicatorAVisible)
    }

    /** The end of the full-mode round: at B's item when B is set, else at the last item (and a lone A is cleared). */
    method SetFullModeEnd(last: real)
      requires Valid() && |items| > 0 && last == CalcPosition(scale, items[|items| - 1].time)
      modifies this`endPlayTimePositionInFullMode, this`endPlayTimePositionInFullModeIndex
      modifies rangeIndicator`isIndicatorAVisible, rangeIndicator`isIndicatorBVisible
      modifies rangeIndicator.markerA`realPosition, rangeIndicator.markerA`time, rangeIndicator.markerB`realPosition, rangeIndicator.markerB`time
      ensures Valid() && FullEndAt()
      ensures rangeIndicator.isIndicatorBVisible == old(rangeIndicator.isIndicatorBVisible)
    {
      if rangeIndicator.isIndicatorBVisible {
        EndAtB();
      } else {
        EndAtLast(last);
      }
    }

    /** The round ends at B's truncated time, on the item with that time if there is one. */
    method EndAtB()
      requires Valid() && |items| > 0 && rangeIndicator.isIndicatorBVisible
      modifies this`endPlayTimePositionInFullMode, this`endPlayTimePositionInFullModeIndex
      ensures Valid() && FullEndAt()
    {
      var endTime := CalcTimeMillisecond(scale, rangeIndicator.markerB.realPosition, false);
      var endIndex := GetTimeItemIndex(endTime);
      endPlayTimePositionInFullMode, endPlayTimePositionInFullModeIndex := CalcPosition(scale, endTime), endIndex;
      ValidKept(this);
    }

    /** The round ends at the last item, and a lone A is cleared. */
    method EndAtLast(last: real)
      requires Valid() && |items| > 0 && last == CalcPosition(scale, items[|items| - 1].time)
      modifies this`endPlayTimePositionInFullMode, this`endPlayTimePositionInFullModeIndex
      modifies rangeIndicator`isIndicatorAVisible, rangeIndicator`isIndicatorBVisible
      modifies rangeIndicator.markerA`realPosition, rangeIndicator.markerA`time, rangeIndicator.markerB`realPosition, rangeIndicator.markerB`time
      ensures Valid() && FullEndAt() && !rangeIndicator.isIndicatorBVisible
    {
      endPlayTimePositionInFullMode, endPlayTimePositionInFullModeIndex := last, |items| - 1;
      ValidKept(this);
      rangeIndicator.Reset(scale);
    }

    /** The start of the full-mode round shown and reported, and the first message queued. */
    method AnnounceFullPlay()
      requires Valid() && 0 <= startPlayTimePositionInFullModeIndex < |items|
      modifies playIndicator`realPosition, playIndicator`time, this`fullTickQueued, this`isPlaying
      modifies this`isCalledStart, this`events, timeIndicator`isVisible, playIndicator`isVisible
      ensures Valid() && isPlaying && isCalledStart && fullTickQueued && playIndicator.isVisible && !timeIndicator.isVisible
      ensures playIndicator.realPosition == startPlayTimePositionInFullMode
      ensures var i := startPlayTimePositionInFullModeIndex;
        events == old(events) + (if old(isCalledStart) then [] else [PlayStarted]) + [PlayTimeChanged(items[i].time, items[i].timeItem)]
    {
      var i := startPlayTimePositionInFullModeIndex;
      PlaceFullStart();
      AnnouncePlay();
      Emit([PlayTimeChanged(items[i].time, items[i].timeItem)]);
    }

    /** Playing, with the play indicator on the start of the round and the player's first message queued. */
    method PlaceFullStart()
      requires Valid()
      modifies playIndicator`realPosition, playIndicator`time, this`fullTickQueued, this`isPlaying
      ensures Valid() && isPlaying && fullTickQueued && playIndicator.realPosition == startPlayTimePositionInFullMode
    {
      isPlaying, fullTickQueued := true, true;
      ValidKept(this);
      playIndicator.SetRealPosition(scale, startPlayTimePositionInFullMode);
    }

    /**
     * A message of the full-mode player (`playInFullModeHandler`): the next
     * item.  Past the end index the round ends at once; otherwise both
     * indicators go to that item's time, which is reported, and then the
     * round ends at the end index or the next message is queued.
     */
    method FullModeTick()
      requires Valid() && fullTickQueued && |items| > 0
      requires -1 <= startPlayTimePositionInFullModeIndex && endPlayTimePositionInFullModeIndex < |items|
      requires isRepeatPlay ==> RepeatStartFound()
      modifies this`isTimeChanged, this`isPlaying, this`fullTickQueued, this`isCalledStart, this`events
      modifies this`startPlayTimePositionInFullMode, this`startPlayTimePositionInFullModeIndex
      modifies this`endPlayTimePositionInFullMode, this`endPlayTimePositionInFullModeIndex
      modifies rangeIndicator`isIndicatorAVisible, rangeIndicator`isIndicatorBVisible
      modifies rangeIndicator.markerA`realPosition, rangeIndicator.markerA`time, rangeIndicator.markerB`realPosition, rangeIndicator.markerB`time
      modifies playIndicator`realPosition, playIndicator`time, timeIndicator`realPosition, timeIndicator`time
      modifies timeIndicator`isVisible, playIndicator`isVisible
      ensures Valid() && isTimeChanged && old(events) <= events
      ensures var i, e := old(startPlayTimePositionInFullModeIndex) + 1, old(endPlayTimePositionInFullModeIndex);
        i < e ==> FullStepped(i, old(events), old(isPlaying))
      ensures var i, e := old(startPlayTimePositionInFullModeIndex) + 1, old(endPlayTimePositionInFullModeIndex);
        i == e ==> old(events) + [PlayTimeChanged(items[i].time, items[i].timeItem)] <= events
      ensures var i, e := old(startPlayTimePositionInFullModeIndex) + 1, old(endPlayTimePositionInFullModeIndex);
        i >= e ==> fullTickQueued == isRepeatPlay && isPlaying == isRepeatPlay
      ensures var i, e := old(startPlayTimePositionInFullModeIndex) + 1, old(endPlayTimePositionInFullModeIndex);
        i >= e && !isRepeatPlay ==>
          events == old(events) + (if i == e then [PlayTimeChanged(items[i].time, items[i].timeItem)] else []) + [PlayStopped]
    {
      NextFullIndex();
      var i := startPlayTimePositionInFullModeIndex;
      if i > endPlayTimePositionInFullModeIndex {
        EndFullRound();
      } else {
        FullStepTo(i);
      }
    }

    /** The full-mode player at item i, up to the end index: move there and report, then end the round or go on. */
    method FullStepTo(i: int)
      requires Valid() && |items| > 0 && 0 <= i <= endPlayTimePositionInFullModeIndex < |items| && !fullTickQueued
      requires isRepeatPlay ==> RepeatStartFound()
      modifies this`isPlaying, this`fullTickQueued, this`isCalledStart, this`events
      modifies this`startPlayTimePositionInFullMode, this`startPlayTimePositionInFullModeIndex
      modifies this`endPlayTimePositionInFullMode, this`endPlayTimePositionInFullModeIndex
      modifies rangeIndicator`isIndicatorAVisible, rangeIndicator`isIndicatorBVisible
      modifies rangeIndicator.markerA`realPosition, rangeIndicator.markerA`time, rangeIndicator.markerB`realPosition, rangeIndicator.markerB`time
      modifies playIndicator`realPosition, playIndicator`time, timeIndicator`realPosition, timeIndicator`time
      modifies timeIndicator`isVisible, playIndicator`isVisible
      ensures Valid() && old(events) + [PlayTimeChanged(items[i].time, items[i].timeItem)] <= events
      ensures i < old(endPlayTimePositionInFullModeIndex) ==>
        startPlayTimePositionInFullModeIndex == old(startPlayTimePositionInFullModeIndex) && FullStepped(i, old(events), old(isPlaying))
      ensures i == old(endPlayTimePositionInFullModeIndex) ==> fullTickQueued == isRepeatPlay && isPlaying == isRepeatPlay
      ensures i == old(endPlayTimePositionInFullModeIndex) && !isRepeatPlay ==>
        events == old(events) + [PlayTimeChanged(items[i].time, items[i].timeItem), PlayStopped]
    {
      FullAdvanceTo(i);
      if i == endPlayTimePositionInFullModeIndex {
        EndFullRound();
      } else {
        QueueFullTick();
      }
    }

    /** The message taken: the playhead counts as moved, and the player's index moves on by one. */
    method NextFullIndex()
      requires Valid()
      modifies this`isTimeChanged, this`fullTickQueued, this`startPlayTimePositionInFullModeIndex
      ensures Valid() && isTimeChanged && !fullTickQueued
      ensures startPlayTimePositionInFullModeIndex == old(startPlayTimePositionInFullModeIndex) + 1
    {
      isTimeChanged, fullTickQueued := true, false;
      startPlayTimePositionInFullModeIndex := startPlayTimePositionInFullModeIndex + 1;
      ValidKept(this);
    }

    /** The full-mode player's next message queued. */
    method QueueFullTick()
      requires Valid()
      modifies this`fullTickQueued
      ensures Valid() && fullTickQueued
    {
      fullTickQueued := true;
      ValidKept(this);
    }

    /**
     * A step of the full-mode player to item i that is not the last of the
     * round: both indicators on its time, that time reported, the next
     * message queued, still playing.
     */
    ghost predicate FullStepped(i: int, before: seq<Event>, wasPlaying: bool)
      reads this`items, items`time, this`scale, this`fullTickQueued, this`isPlaying, this`events
      reads this`startPlayTimePositionInFullMode, playIndicator`realPosition, timeIndicator`realPosition
    {
      && 0 <= i < |items| && scale.timeOfPerPixel > 0.0
      && fullTickQueued && isPlaying == wasPlaying
      && startPlayTimePositionInFullMode == CalcPosition(scale, items[i].time)
      && playIndicator.realPosition == startPlayTimePositionInFullMode
      && timeIndicator.realPosition == startPlayTimePositionInFullMode
      && events == before + [PlayTimeChanged(items[i].time, items[i].timeItem)]
    }

    /** Both indicators on item i's time, which is reported. */
    method FullAdvanceTo(i: int)
      requires Valid() && 0 <= i < |items|
      modifies this`startPlayTimePositionInFullMode, this`events
      modifies playIndicator`realPosition, playIndicator`time, timeIndicator`realPosition, timeIndicator`time
      ensures Valid()
      ensures startPlayTimePositionInFullMode == CalcPosition(scale, items[i].time)
      ensures playIndicator.realPosition == startPlayTimePositionInFullMode
      ensures timeIndicator.realPosition == startPlayTimePositionInFullMode
      ensures events == old(events) + [PlayTimeChanged(items[i].time, items[i].timeItem)]
    {
      var changed := PlayTimeChanged(items[i].time, items[i].timeItem);
      startPlayTimePositionInFullMode := CalcPosition(scale, items[i].time);
      PlaceIndicators(startPlayTimePositionInFullMode);
      Emit([changed]);
    }

    /**
     * The end of a full-mode round: the round's range is restored; without
     * repeat the playhead is shown and playback stops with `onStop`, with
     * repeat the next round starts.
     */
    method EndFullRound()
      requires Valid() && |items| > 0 && !fullTickQueued
      requires isRepeatPlay ==> RepeatStartFound()
      modifies this`isPlaying, this`fullTickQueued, this`isCalledStart, this`events
      modifies this`startPlayTimePositionInFullMode, this`startPlayTimePositionInFullModeIndex
      modifies this`endPlayTimePositionInFullMode, this`endPlayTimePositionInFullModeIndex
      modifies rangeIndicator`isIndicatorAVisible, rangeIndicator`isIndicatorBVisible
      modifies rangeIndicator.markerA`realPosition, rangeIndicator.markerA`time, rangeIndicator.markerB`realPosition, rangeIndicator.markerB`time
      modifies playIndicator`realPosition, playIndicator`time, timeIndicator`realPosition, timeIndicator`time
      modifies timeIndicator`isVisible, playIndicator`isVisible
      ensures Valid() && old(events) <= events
      ensures !isRepeatPlay ==>
        && !isPlaying && !fullTickQueued && timeIndicator.isVisible && !playIndicator.isVisible
        && events == old(events) + [PlayStopped]
      ensures isRepeatPlay ==> isPlaying && fullTickQueued && playIndicator.isVisible && !timeIndicator.isVisible
    {
      if !isRepeatPlay {
        StopAfterFullRound();
      } else {
        RepeatFullRound();
      }
    }

    /** The last round is over: the range restored, the playhead shown, `onStop`. */
    method StopAfterFullRound()
      requires Valid() && |items| > 0 && !isRepeatPlay
      modifies this`isPlaying, this`events
      modifies this`startPlayTimePositionInFullMode, this`startPlayTimePositionInFullModeIndex
      modifies this`endPlayTimePositionInFullMode, this`endPlayTimePositionInFullModeIndex
      modifies playIndicator`realPosition, playIndicator`time, timeIndicator`realPosition, timeIndicator`time
      modifies timeIndicator`isVisible, playIndicator`isVisible
      ensures Valid() && !isPlaying && timeIndicator.isVisible && !playIndicator.isVisible
      ensures events == old(events) + [PlayStopped]
    {
      ResetPlayTimeInFullMode();
      isPlaying := false;
      Emit([PlayStopped]);
    }

    /** A repeat: the range restored, then the next round starts from its start. */
    method RepeatFullRound()
      requires Valid() && |items| > 0 && RepeatStartFound()
      modifies this`isPlaying, this`fullTickQueued, this`isCalledStart, this`events
      modifies this`startPlayTimePositionInFullMode, this`startPlayTimePositionInFullModeIndex
      modifies this`endPlayTimePositionInFullMode, this`endPlayTimePositionInFullModeIndex
      modifies rangeIndicator`isIndicatorAVisible, rangeIndicator`isIndicatorBVisible
      modifies rangeIndicator.markerA`realPosition, rangeIndicator.markerA`time, rangeIndicator.markerB`realPosition, rangeIndicator.markerB`time
      modifies playIndicator`realPosition, playIndicator`time, timeIndicator`realPosition, timeIndicator`time
      modifies timeIndicator`isVisible, playIndicator`isVisible
      ensures Valid() && old(events) <= events
      ensures isPlaying && fullTickQueued && playIndicator.isVisible && !timeIndicator.isVisible
    {
      ResetPlayTimeInFullMode();
      FirstItemStartFound();
      PlayInFullMode();
    }

    /**
     * `resetPlayTimeInFullMode`: the round runs from A to B when both are
     * shown (the indices are those of the full-mode ticks under A and B),
     * else from the first item to the last; both indicators go to its start,
     * and without repeat the playhead is shown again.
     */
    method ResetPlayTimeInFullMode()
      requires Valid() && |items| > 0
      modifies this`startPlayTimePositionInFullMode, this`startPlayTimePositionInFullModeIndex
      modifies this`endPlayTimePositionInFullMode, this`endPlayTimePositionInFullModeIndex
      modifies playIndicator`realPosition, playIndicator`time, timeIndicator`realPosition, timeIndicator`time
      modifies timeIndicator`isVisible, playIndicator`isVisible
      ensures Valid()
      ensures var a, b := rangeIndicator.markerA, rangeIndicator.markerB;
        if rangeIndicator.isIndicatorAVisible && rangeIndicator.isIndicatorBVisible then
          && startPlayTimePositionInFullMode == a.realPosition
          && startPlayTimePositionInFullModeIndex == CalcTimeIndex(scale, a.realPosition, true)
          && endPlayTimePositionInFullMode == b.realPosition
          && endPlayTimePositionInFullModeIndex == CalcTimeIndex(scale, b.realPosition, true)
        else
          && startPlayTimePositionInFullMode == CalcPosition(scale, items[0].time)
          && startPlayTimePositionInFullModeIndex == 0
          && endPlayTimePositionInFullMode == CalcPosition(scale, LastItemTime())
          && endPlayTimePositionInFullModeIndex == |items| - 1
      ensures playIndicator.realPosition == startPlayTimePositionInFullMode
      ensures timeIndicator.realPosition == startPlayTimePositionInFullMode
      ensures !isRepeatPlay ==> timeIndicator.isVisible && !playIndicator.isVisible
      ensures isRepeatPlay ==> unchanged(timeIndicator`isVisible, playIndicator`isVisible)
    {
      SetFullRoundRange();
      PlaceRoundStart();
    }

    /** The range of a full-mode round after a reset: A to B, or the first item to the last. */
    method SetFullRoundRange()
      requires Valid() && |items| > 0
      modifies this`startPlayTimePositionInFullMode, this`startPlayTimePositionInFullModeIndex
      modifies this`endPlayTimePositionInFullMode, this`endPlayTimePositionInFullModeIndex
      ensures Valid()
      ensures var a, b := rangeIndicator.markerA, rangeIndicator.markerB;
        if rangeIndicator.isIndicatorAVisible && rangeIndicator.isIndicatorBVisible then
          && startPlayTimePositionInFullMode == a.realPosition
          && startPlayTimePositionInFullModeIndex == CalcTimeIndex(scale, a.realPosition, true)
          && endPlayTimePositionInFullMode == b.realPosition
          && endPlayTimePositionInFullModeIndex == CalcTimeIndex(scale, b.realPosition, true)
        else
          && startPlayTimePositionInFullMode == CalcPosition(scale, items[0].time)
          && startPlayTimePositionInFullModeIndex == 0
          && endPlayTimePositionInFullMode == CalcPosition(scale, LastItemTime())
          && endPlayTimePositionInFullModeIndex == |items| - 1
    {
      var a, b := rangeIndicator.markerA, rangeIndicator.markerB;
      if rangeIndicator.isIndicatorAVisible && rangeIndicator.isIndicatorBVisible {
        startPlayTimePositionInFullMode := a.realPosition;
        startPlayTimePositionInFullModeIndex := CalcTimeIndex(scale, a.realPosition, true);
        endPlayTimePositionInFullMode := b.realPosition;
        endPlayTimePositionInFullModeIndex := CalcTimeIndex(scale, b.realPosition, true);
      } else {
        startPlayTimePositionInFullMode := CalcPosition(scale, items[0].time);
        startPlayTimePositionInFullModeIndex := 0;
        endPlayTimePositionInFullMode := CalcPosition(scale, items[|items| - 1].time);
        endPlayTimePositionInFullModeIndex := |items| - 1;
      }
      ValidKept(this);
    }

    /** Both indicators on the start of the round; without repeat the playhead is shown again. */
    method PlaceRoundStart()
      requires Valid()
      modifies playIndicator`realPosition, playIndicator`time, timeIndicator`realPosition, timeIndicator`time
      modifies timeIndicator`isVisible, playIndicator`isVisible
      ensures Valid()
      ensures playIndicator.realPosition == startPlayTimePositionInFullMode
      ensures timeIndicator.realPosition == startPlayTimePositionInFullMode
      ensures !isRepeatPlay ==> timeIndicator.isVisible && !playIndicator.isVisible
      ensures isRepeatPlay ==> unchanged(timeIndicator`isVisible, playIndicator`isVisible)
    {
      PlaceIndicators(startPlayTimePositionInFullMode);
      if !isRepeatPlay {
        ShowPlayIndicator(false);
      }
    }

    // ------------------------------------------------ the mode switch

    /**
     * `setFullMode`, outside playback: ignored while an add or delete runs or
     * when the ruler is in that mode already; otherwise the mode switches
     * (`doSwitchMode`).
     */
    method SetFullMode(full: bool)
      requires Valid() && !isPlaying
      modifies this`isFullMode, this`scale, this`oldCurrentLeft, this`currentLeft, this`currentLeftIndex, this`isTimeChanged
      modifies timeIndicator`realPosition, playIndicator`realPosition
      modifies rangeIndicator.markerA`realPosition, rangeIndicator.markerB`realPosition
      ensures Valid()
      ensures old(isOperating || isFullMode == full) ==>
        unchanged(this) && unchanged(timeIndicator, playIndicator, rangeIndicator.markerA, rangeIndicator.markerB)
      ensures !old(isOperating || isFullMode == full) ==>
        && isFullMode == full && !isTimeChanged
        && (full ==> oldCurrentLeft == old(currentLeft) && currentLeft == 0.0)
        && (!full ==> currentLeft == ClampLeft(if old(isTimeChanged) then timeIndicator.realPosition - screenCenterPosition as real
                                               else old(oldCurrentLeft),
                                               scale.ViewWidth() - layout.screenWidth as real))
        && timeIndicator.realPosition == CalcPosition(scale, timeIndicator.time)
        && CurrentTime() == timeIndicator.time
        && playIndicator.realPosition == CalcPosition(scale, playIndicator.time)
        && rangeIndicator.markerA.realPosition == CalcPosition(scale, rangeIndicator.markerA.time)
        && rangeIndicator.markerB.realPosition == CalcPosition(scale, rangeIndicator.markerB.time)
    {
      if isOperating || isFullMode == full {
        return;
      }
      DoSwitchMode(full);
    }

    /**
     * `doSwitchMode`: the scale of the new mode; every indicator back on its
     * own time under it; full mode remembers the scroll offset and shows the
     * whole ruler; back in normal mode the ruler returns to that offset or,
     * when the playhead moved meanwhile, centres the playhead.
     */
    method DoSwitchMode(full: bool)
      requires Valid() && !isOperating && isFullMode != full
      modifies this`isFullMode, this`scale, this`oldCurrentLeft, this`currentLeft, this`currentLeftIndex, this`isTimeChanged
      modifies timeIndicator`realPosition, playIndicator`realPosition
      modifies rangeIndicator.markerA`realPosition, rangeIndicator.markerB`realPosition
      ensures Valid() && isFullMode == full && !isTimeChanged
      ensures full ==> oldCurrentLeft == old(currentLeft) && currentLeft == 0.0
      ensures !full ==> currentLeft == ClampLeft(if old(isTimeChanged) then timeIndicator.realPosition - screenCenterPosition as real
                                                 else old(oldCurrentLeft),
                                                 scale.ViewWidth() - layout.screenWidth as real)
      ensures timeIndicator.realPosition == CalcPosition(scale, timeIndicator.time)
      ensures CurrentTime() == timeIndicator.time
      ensures playIndicator.realPosition == CalcPosition(scale, playIndicator.time)
      ensures rangeIndicator.markerA.realPosition == CalcPosition(scale, rangeIndicator.markerA.time)
      ensures rangeIndicator.markerB.realPosition == CalcPosition(scale, rangeIndicator.markerB.time)
    {
      SwitchScale(full);
      SwitchOffset(full);
    }

    /** The scale of the new mode, with every indicator back on its own time under it. */
    method SwitchScale(full: bool)
      requires Valid() && !isOperating
      modifies this`isFullMode, this`scale
      modifies timeIndicator`realPosition, playIndicator`realPosition
      modifies rangeIndicator.markerA`realPosition, rangeIndicator.markerB`realPosition
      ensures Valid() && isFullMode == full
      ensures timeIndicator.realPosition == CalcPosition(scale, timeIndicator.time)
      ensures CurrentTime() == timeIndicator.time
      ensures playIndicator.realPosition == CalcPosition(scale, playIndicator.time)
      ensures rangeIndicator.markerA.realPosition == CalcPosition(scale, rangeIndicator.markerA.time)
      ensures rangeIndicator.markerB.realPosition == CalcPosition(scale, rangeIndicator.markerB.time)
    {
      isFullMode, scale := full, InitScale(layout, full);
      RefreshIndicators();
    }

    /** The scroll offset of the new mode; the playhead counts as unmoved again. */
    method SwitchOffset(full: bool)
      requires Valid()
      modifies this`oldCurrentLeft, this`currentLeft, this`currentLeftIndex, this`isTimeChanged
      ensures Valid() && !isTimeChanged
      ensures full ==> oldCurrentLeft == old(currentLeft) && currentLeft == 0.0
      ensures !full ==> currentLeft == ClampLeft(if old(isTimeChanged) then timeIndicator.realPosition - screenCenterPosition as real
                                                 else old(oldCurrentLeft),
                                                 scale.ViewWidth() - layout.screenWidth as real)
    {
      if full {
        oldCurrentLeft, currentLeft, isTimeChanged := currentLeft, 0.0, false;
        ValidKept(this);
      } else {
        RestoreOffset();
      }
    }

    /** Back in normal mode: the offset saved on entry, or the one that centres the playhead if it moved meanwhile. */
    method RestoreOffset()
      requires Valid()
      modifies this`currentLeft, this`currentLeftIndex, this`isTimeChanged
      ensures Valid() && !isTimeChanged
      ensures currentLeft == ClampLeft(if old(isTimeChanged) then timeIndicator.realPosition - screenCenterPosition as real
                                       else oldCurrentLeft,
                                       scale.ViewWidth() - layout.screenWidth as real)
    {
      currentLeft := if !isTimeChanged then oldCurrentLeft else timeIndicator.realPosition - screenCenterPosition as real;
      isTimeChanged := false;
      ValidKept(this);
      ComputeTime();
    }

    /** `refreshPosition`: the playhead, the range markers and the play indicator back on their own times. */
    method RefreshIndicators()
      requires Valid()
      modifies timeIndicator`realPosition, playIndicator`realPosition
      modifies rangeIndicator.markerA`realPosition, rangeIndicator.markerB`realPosition
      ensures Valid()
      ensures timeIndicator.realPosition == CalcPosition(scale, timeIndicator.time)
      ensures CurrentTime() == timeIndicator.time
      ensures playIndicator.realPosition == CalcPosition(scale, playIndicator.time)
      ensures rangeIndicator.markerA.realPosition == CalcPosition(scale, rangeIndicator.markerA.time)
      ensures rangeIndicator.markerB.realPosition == CalcPosition(scale, rangeIndicator.markerB.time)
    {
      timeIndicator.RefreshPosition(scale);
      rangeIndicator.RefreshPosition(scale);
      playIndicator.RefreshPosition(scale);
    }

  }

  /** From tick k, (n - k) segments further on is tick n. */
  lemma TicksAhead(s: Scale, k: int, n: int)
    ensures TickPosition(s, k) + (n - k) as real * s.segmentWidth == TickPosition(s, n)
  {
    assert (n - k) as real * s.segmentWidth == n as real * s.segmentWidth - k as real * s.segmentWidth;
  }

  /** The item invariant survives any step that leaves the list, the operation and the items' positions and times alone. */
  twostate lemma ItemsKept(r: TimeRuler)
    requires old(r.ItemsValid())
    requires unchanged(r`items, r`operation) && unchanged(r.items`realPosition, r.items`time)
    ensures r.ItemsValid()
  {
  }

  /** The ruler stays valid across a step that changes only the callback log and its start mark, and keeps them counted. */
  twostate lemma LogKept(r: TimeRuler)
    requires old(r.Valid()) && r.StartsCounted()
    requires unchanged(r`scale, r`isFullMode, r`isOperating, r`operation, r`items)
    requires unchanged(r.timeIndicator`time, r.playIndicator`time, r.rangeIndicator`isIndicatorAVisible, r.rangeIndicator`isIndicatorBVisible)
    requires unchanged(r.rangeIndicator.markerA`time, r.rangeIndicator.markerB`time)
    requires unchanged(r.items`realPosition, r.items`time)
    ensures r.Valid()
  {
    ItemsKept(r);
  }

  /** The ruler stays valid across a step that changes none of the state its invariant reads. */
  twostate lemma ValidKept(r: TimeRuler)
    requires old(r.Valid())
    requires unchanged(r`scale, r`isFullMode, r`isOperating, r`operation, r`items, r`startMark, r`events, r`isCalledStart)
    requires unchanged(r.timeIndicator`time, r.playIndicator`time, r.rangeIndicator`isIndicatorAVisible, r.rangeIndicator`isIndicatorBVisible)
    requires unchanged(r.rangeIndicator.markerA`time, r.rangeIndicator.markerB`time)
    requires unchanged(r.items`realPosition, r.items`time)
    ensures r.Valid()
  {
    ItemsKept(r);
  }

  /** The ruler stays valid across a step that leaves the indicators and the callback log alone. */
  twostate lemma IndicatorsAndLogKept(r: TimeRuler)
    requires old(r.Valid()) && r.LayoutValid() && r.ItemsValid()
    requires unchanged(r.timeIndicator, r.playIndicator, r.rangeIndicator, r.rangeIndicator.markerA, r.rangeIndicator.markerB)
    requires unchanged(r`startMark, r`events, r`isCalledStart)
    ensures r.Valid()
  {
  }

  /**
   * No position lies right of its own tick (rounded); past the hole (the item
   * that fades out, -1 for none) none lies right of the tick before its own,
   * the tick it takes once the hole has left the list.  This is what keeps the
   * player's item lookups in range.
   */
  ghost predicate BelowTicks(s: Scale, ps: seq<real>, hole: int)
    requires s.segmentWidth > 0.0
  {
    forall i | 0 <= i < |ps| :: CalcTimeIndex(s, ps[i], true) <= (if 0 <= hole < i then i - 1 else i)
  }

  /** The real positions of a list of items. */
  ghost function PositionsOf(cs: seq<CircleIndicator>): (ps: seq<real>)
    reads cs`realPosition
    ensures |ps| == |cs|
  {
    if cs == [] then [] else [cs[0].realPosition] + PositionsOf(cs[1..])
  }

  /** Position i of the list is item i's position. */
  lemma {:induction false} PositionsOfIndex(cs: seq<CircleIndicator>)
    ensures forall i | 0 <= i < |cs| :: PositionsOf(cs)[i] == cs[i].realPosition
  {
    if cs != [] {
      PositionsOfIndex(cs[1..]);
    }
  }

  /** No item object appears twice in the list. */
  predicate Distinct(cs: seq<CircleIndicator>)
  {
    forall i, j | 0 <= i < j < |cs| :: cs[i] != cs[j]
  }

  /** Every item's time is the one its position gives. */
  ghost predicate AllTimed(s: Scale, cs: seq<CircleIndicator>)
    reads cs`realPosition, cs`time
  {
    forall i {:trigger cs[i].TimeMatches(s)} | 0 <= i < |cs| :: cs[i].TimeMatches(s)
  }

  /** Inserting a new object keeps the list free of repeats. */
  lemma DistinctInsert(cs: seq<CircleIndicator>, k: int, c: CircleIndicator)
    requires 0 <= k <= |cs| && Distinct(cs) && c !in cs
    ensures Distinct(cs[..k] + [c] + cs[k..])
  {
    var r := cs[..k] + [c] + cs[k..];
    forall i, j | 0 <= i < j < |r|
      ensures r[i] != r[j]
    {
      if i == k {
        assert r[j] in cs;
      } else if j == k {
        assert r[i] in cs;
      }
    }
  }

  /** Removing an object keeps the list free of repeats. */
  lemma DistinctRemove(cs: seq<CircleIndicator>, k: int)
    requires 0 <= k < |cs| && Distinct(cs)
    ensures Distinct(cs[..k] + cs[k + 1..])
    ensures cs[k] !in cs[..k] + cs[k + 1..]
  {
    var r := cs[..k] + cs[k + 1..];
    forall i, j | 0 <= i < j < |r|
      ensures r[i] != r[j]
    {
      assert r[i] == cs[if i < k then i else i + 1];
      assert r[j] == cs[if j < k then j else j + 1];
    }
  }

  /** Inserting a timed item keeps every item timed. */
  lemma AllTimedInsert(s: Scale, cs: seq<CircleIndicator>, k: int, c: CircleIndicator)
    requires 0 <= k <= |cs| && AllTimed(s, cs) && c.TimeMatches(s)
    ensures AllTimed(s, cs[..k] + [c] + cs[k..])
  {
    var r := cs[..k] + [c] + cs[k..];
    forall i | 0 <= i < |r|
      ensures r[i].TimeMatches(s)
    {
      if i > k {
        assert r[i] == cs[i - 1];
      }
    }
  }

  /**
   * `addTimeItem`'s padding: new empty items on ticks from .. k - 1, each timed
   * by its position and none of them among `others`.
   */
  method MakePads(s: Scale, from: int, k: int, radius: int, top: real, others: seq<CircleIndicator>)
    returns (pads: seq<CircleIndicator>)
    requires from <= k
    ensures |pads| == k - from && Distinct(pads)
    ensures forall i | 0 <= i < |pads| ::
      && fresh(pads[i]) && pads[i] !in others && pads[i].timeItem == EmptyItem()
      && pads[i].realPosition == TickPosition(s, from + i) && pads[i].TimeMatches(s)
  {
    pads := [];
    var index := from;
    while index < k
      invariant from <= index <= k && |pads| == index - from && Distinct(pads)
      invariant forall i | 0 <= i < |pads| ::
        && fresh(pads[i]) && pads[i] !in others && pads[i].timeItem == EmptyItem()
        && pads[i].realPosition == TickPosition(s, from + i) && pads[i].TimeMatches(s)
    {
      var pad := new CircleIndicator(s, EmptyItem(), TickPosition(s, index), radius, top);
      DistinctInsert(pads, |pads|, pad);
      pads := pads + [pad];
      index := index + 1;
    }
  }

  /** Appending the pads of ticks |cs| .. and then c keeps the list distinct and timed and appends their positions. */
  lemma AppendedPads(s: Scale, cs: seq<CircleIndicator>, pads: seq<CircleIndicator>, c: CircleIndicator)
    requires Distinct(cs) && AllTimed(s, cs) && c !in cs && c.TimeMatches(s) && Distinct(pads)
    requires forall i | 0 <= i < |pads| ::
      && pads[i] !in cs + [c] && pads[i].realPosition == TickPosition(s, |cs| + i) && pads[i].TimeMatches(s)
    ensures Distinct(cs + pads + [c]) && AllTimed(s, cs + pads + [c])
    ensures PositionsOf(cs + pads + [c]) == PositionsOf(cs) + TickPositions(s, |cs|, |cs| + |pads|) + [c.realPosition]
  {
    DistinctConcat(cs, pads);
    DistinctConcat(cs + pads, [c]);
    AllTimedConcat(s, cs, pads);
    AllTimedConcat(s, cs + pads, [c]);
    PadPositions(s, cs, pads, c);
  }

  /** Two distinct lists with no object in common make a distinct list. */
  lemma DistinctConcat(cs: seq<CircleIndicator>, ds: seq<CircleIndicator>)
    requires Distinct(cs) && Distinct(ds) && forall i | 0 <= i < |ds| :: ds[i] !in cs
    ensures Distinct(cs + ds)
  {
    var r := cs + ds;
    forall i, j | 0 <= i < j < |r|
      ensures r[i] != r[j]
    {
      if |cs| <= j {
        assert r[j] == ds[j - |cs|];
        if |cs| <= i {
          assert r[i] == ds[i - |cs|];
        } else {
          assert r[i] in cs;
        }
      }
    }
  }

  /** The positions of the list, the pads on their ticks and c. */
  lemma PadPositions(s: Scale, cs: seq<CircleIndicator>, pads: seq<CircleIndicator>, c: CircleIndicator)
    requires forall i | 0 <= i < |pads| :: pads[i].realPosition == TickPosition(s, |cs| + i)
    ensures PositionsOf(cs + pads + [c]) == PositionsOf(cs) + TickPositions(s, |cs|, |cs| + |pads|) + [c.realPosition]
  {
    PositionsOfIndex(cs);
    PositionsOfIndex(cs + pads + [c]);
  }

  /** Timed items followed by timed items are timed. */
  lemma AllTimedConcat(s: Scale, cs: seq<CircleIndicator>, ds: seq<CircleIndicator>)
    requires AllTimed(s, cs) && forall i | 0 <= i < |ds| :: ds[i].TimeMatches(s)
    ensures AllTimed(s, cs + ds)
  {
    forall i | 0 <= i < |cs + ds|
      ensures (cs + ds)[i].TimeMatches(s)
    {
      if i >= |cs| {
        assert (cs + ds)[i] == ds[i - |cs|];
      }
    }
  }

  /** Removing an item keeps every other item timed. */
  lemma AllTimedRemove(s: Scale, cs: seq<CircleIndicator>, k: int)
    requires 0 <= k < |cs| && AllTimed(s, cs)
    ensures AllTimed(s, cs[..k] + cs[k + 1..])
  {
    var r := cs[..k] + cs[k + 1..];
    forall i | 0 <= i < |r|
      ensures r[i].TimeMatches(s)
    {
      assert r[i] == cs[if i < k then i else i + 1];
    }
  }

  /** Appending an item appends its position. */
  lemma PositionsOfSnoc(cs: seq<CircleIndicator>, c: CircleIndicator)
    ensures PositionsOf(cs + [c]) == PositionsOf(cs) + [c.realPosition]
  {
    PositionsOfIndex(cs);
    PositionsOfIndex(cs + [c]);
  }

  /** Inserting an item at k into items shifted from k on inserts its position. */
  lemma PositionsOfInsert(cs: seq<CircleIndicator>, ps: seq<real>, k: int, c: CircleIndicator, d: real)
    requires 0 <= k <= |ps| == |cs| && PositionsOf(cs) == ps[..k] + Shifted(ps[k..], d)
    ensures PositionsOf(cs[..k] + [c] + cs[k..]) == ps[..k] + [c.realPosition] + Shifted(ps[k..], d)
  {
    PositionsOfIndex(cs);
    PositionsOfIndex(cs[..k] + [c] + cs[k..]);
    assert |cs| == |ps|;
  }

  /** Items whose positions are ps, moved by d from index `from` on. */
  lemma PositionsOfShifted(cs: seq<CircleIndicator>, ps: seq<real>, from: int, d: real)
    requires 0 <= from <= |cs| == |ps|
    requires forall i | 0 <= i < |cs| :: cs[i].realPosition == ps[i] + (if from <= i then d else 0.0)
    ensures PositionsOf(cs) == ps[..from] + Shifted(ps[from..], d)
    ensures PositionsOf(cs) == ShiftedFrom(ps, from, d)
  {
    PositionsOfIndex(cs);
  }

  /** The positions from index `from` on moved by d. */
  function ShiftedFrom(ps: seq<real>, from: int, d: real): (r: seq<real>)
    ensures |r| == |ps| && forall i | 0 <= i < |ps| :: r[i] == (if i < from then ps[i] else ps[i] + d)
  {
    seq(|ps|, i requires 0 <= i < |ps| => if i < from then ps[i] else ps[i] + d)
  }

  /** Every position moved by d. */
  function Shifted(ps: seq<real>, d: real): (r: seq<real>)
    ensures |r| == |ps| && forall i | 0 <= i < |ps| :: r[i] == ps[i] + d
  {
    seq(|ps|, i requires 0 <= i < |ps| => ps[i] + d)
  }

  /** The positions of ticks lo .. hi - 1. */
  function TickPositions(s: Scale, lo: int, hi: int): (r: seq<real>)
    requires lo <= hi
    ensures |r| == hi - lo && forall i | 0 <= i < hi - lo :: r[i] == TickPosition(s, lo + i)
  {
    seq(hi - lo, i requires 0 <= i < hi - lo => TickPosition(s, lo + i))
  }

  /** One more tick at the end. */
  lemma TickPositionsSnoc(s: Scale, lo: int, hi: int)
    requires lo <= hi
    ensures TickPositions(s, lo, hi + 1) == TickPositions(s, lo, hi) + [TickPosition(s, hi)]
  {
  }

  /** Inserting an item at k inserts its timeline item at k. */
  lemma TimeItemsOfInsert(cs: seq<CircleIndicator>, k: int, c: CircleIndicator)
    requires 0 <= k < |cs|
    ensures TimeItemsOf(cs[..k] + [c] + cs[k..]) == AddedItems(TimeItemsOf(cs), k, c.timeItem)
  {
  }

  /** Padding with empty items up to k and appending an item at k appends its timeline item at k. */
  lemma TimeItemsOfAppend(cs: seq<CircleIndicator>, ds: seq<CircleIndicator>, k: int)
    requires |cs| <= k && |ds| == k + 1 && ds[..|cs|] == cs
    requires forall i | |cs| <= i < k :: ds[i].timeItem == EmptyItem()
    ensures TimeItemsOf(ds) == AddedItems(TimeItemsOf(cs), k, ds[k].timeItem)
  {
    assert forall i | 0 <= i < |cs| :: ds[i] == cs[i];
  }

  /** Position i is tick i, for every i. */
  ghost predicate OnTicks(s: Scale, ps: seq<real>)
  {
    forall i | 0 <= i < |ps| :: ps[i] == TickPosition(s, i)
  }

  /** Inserting tick k's position at k and moving the later ones a segment right keeps every position on its tick. */
  lemma OnTicksAfterInsert(s: Scale, ps: seq<real>, k: int, p: real)
    requires OnTicks(s, ps) && 0 <= k <= |ps| && p == TickPosition(s, k)
    ensures OnTicks(s, ps[..k] + [p] + Shifted(ps[k..], s.segmentWidth))
  {
    var r := ps[..k] + [p] + Shifted(ps[k..], s.segmentWidth);
    forall i | k < i < |r|
      ensures r[i] == TickPosition(s, i)
    {
      assert r[i] == ps[i - 1] + s.segmentWidth;
      NextTick(s.begin, (i - 1) as real, s.segmentWidth);
    }
  }

  /** Padding ticks |ps| .. k - 1 and appending tick k's position keeps every position on its tick. */
  lemma OnTicksAfterAppend(s: Scale, ps: seq<real>, k: int, p: real)
    requires OnTicks(s, ps) && |ps| <= k && p == TickPosition(s, k)
    ensures OnTicks(s, ps + TickPositions(s, |ps|, k) + [p])
  {
  }

  /** Inserting a position at k whose tick is at most k, and moving the later ones a segment right, keeps every position below its tick. */
  lemma BelowTicksAfterInsert(s: Scale, ps: seq<real>, k: int, p: real)
    requires s.segmentWidth > 0.0 && BelowTicks(s, ps, -1)
    requires 0 <= k <= |ps| && CalcTimeIndex(s, p, true) <= k
    ensures BelowTicks(s, ps[..k] + [p] + Shifted(ps[k..], s.segmentWidth), -1)
  {
    var r := ps[..k] + [p] + Shifted(ps[k..], s.segmentWidth);
    forall i | k < i < |r|
      ensures CalcTimeIndex(s, r[i], true) <= i
    {
      assert r[i] == ps[i - 1] + s.segmentWidth;
      TimeIndexAfterShiftRight(s, ps[i - 1], true);
    }
  }

  /** Padding ticks |ps| .. k - 1 and appending a position whose tick is at most k keeps every position below its tick. */
  lemma BelowTicksAfterAppend(s: Scale, ps: seq<real>, k: int, p: real)
    requires s.segmentWidth > 0.0 && BelowTicks(s, ps, -1)
    requires |ps| <= k && CalcTimeIndex(s, p, true) <= k
    ensures BelowTicks(s, ps + TickPositions(s, |ps|, k) + [p], -1)
  {
    var r := ps + TickPositions(s, |ps|, k) + [p];
    forall i | |ps| <= i < k
      ensures CalcTimeIndex(s, r[i], true) <= i
    {
      TickIndexOfTickPosition(s, i, true);
    }
  }

  /** Moving the positions after k a segment left opens a hole at k. */
  lemma BelowTicksAfterShiftLeft(s: Scale, ps: seq<real>, k: int)
    requires s.segmentWidth > 0.0 && BelowTicks(s, ps, -1) && 0 <= k < |ps|
    ensures BelowTicks(s, ShiftedFrom(ps, k + 1, -s.segmentWidth), k)
  {
    var r := ShiftedFrom(ps, k + 1, -s.segmentWidth);
    forall i | k < i < |r|
      ensures CalcTimeIndex(s, r[i], true) <= i - 1
    {
      TimeIndexAfterShiftLeft(s, ps[i], true);
    }
  }

  /** Removing the hole closes it. */
  lemma BelowTicksAfterRemove(s: Scale, ps: seq<real>, k: int)
    requires s.segmentWidth > 0.0 && 0 <= k < |ps| && BelowTicks(s, ps, k)
    ensures BelowTicks(s, ps[..k] + ps[k + 1..], -1)
  {
    var r := ps[..k] + ps[k + 1..];
    assert forall i | k <= i < |r| :: r[i] == ps[i + 1];
  }

  /**
   * The tick a position snaps to: on tick k of the normal scale, the
   * playhead's snap keeps it there, and time k·200 ms is drawn there.
   */
  lemma SnapToTick(v: Viewport, k: int)
    requires v.Valid() && v.scale.segmentWidth * v.scale.timeOfPerPixel == v.scale.segmentTimeInterval
    requires v.scale.segmentTimeInterval == NormalSegmentTimeInterval && 0 <= k <= v.scale.totalSegmentCount
    ensures CalcPosition(v.scale, k * Quantum) == TickPosition(v.scale, k)
    ensures SnappedTime(v, TickPosition(v.scale, k) - v.currentLeft) == k * Quantum
  {
    TickTimeCorrespondence(v.scale, k);
    ScaledAtMost(v.scale.begin, k as real, v.scale.totalSegmentCount as real, v.scale.segmentWidth);
    SnapFixedPoint(v, k * Quantum);
  }

  /** From a tick before the last, a step of one segment lands on the next tick. */
  lemma StepToNextTick(v: Viewport, p: real, k: int)
    requires v.Valid() && v.scale.segmentWidth * v.scale.timeOfPerPixel == v.scale.segmentTimeInterval
    requires v.scale.segmentTimeInterval == NormalSegmentTimeInterval && 0 <= k < v.scale.totalSegmentCount
    requires p == TickPosition(v.scale, k)
    ensures SnappedTime(v, p - v.currentLeft + v.scale.segmentWidth) == (k + 1) * Quantum
    ensures CalcPosition(v.scale, (k + 1) * Quantum) == TickPosition(v.scale, k + 1)
  {
    NextTick(v.scale.begin, k as real, v.scale.segmentWidth);
    assert p - v.currentLeft + v.scale.segmentWidth == TickPosition(v.scale, k + 1) - v.currentLeft;
    SnapToTick(v, k + 1);
  }

  /** m ≤ n puts b + m·w at or below b + n·w. */
  lemma ScaledAtMost(b: real, m: real, n: real, w: real)
    requires w > 0.0 && m <= n
    ensures b + m * w <= b + n * w
  {
    assert m * w <= n * w;
  }

  /** `moveTimeIndicator`'s and `updateTimeIndicatorPosition`'s clamp: not left of A, not right of B, when set. */
  function ClampToRange(x: real, aVisible: bool, aScreen: real, bVisible: bool, bScreen: real): real
  {
    if aVisible && x < aScreen then aScreen
    else if bVisible && x > bScreen then bScreen
    else x
  }

  /**
   * The playhead settles within the range: with A set at a time on the ruler,
   * never before A; with B set (not before A), never after B.
   */
  lemma PlayheadStaysInRange(v: Viewport, x: real, aVisible: bool, aTime: int, bVisible: bool, bTime: int)
    requires v.Valid()
    requires aVisible ==> OnRuler(v, aTime)
    requires bVisible ==> OnRuler(v, bTime)
    requires aVisible && bVisible ==> aTime <= bTime
    ensures var t := SnappedTime(v, ClampToRange(x, aVisible, CalcPosition(v.scale, aTime) - v.currentLeft,
                                                 bVisible, CalcPosition(v.scale, bTime) - v.currentLeft));
      (aVisible ==> aTime <= t) && (bVisible ==> t <= bTime)
  {
    var aScreen, bScreen := CalcPosition(v.scale, aTime) - v.currentLeft, CalcPosition(v.scale, bTime) - v.currentLeft;
    var target := ClampToRange(x, aVisible, aScreen, bVisible, bScreen);
    if aVisible {
      SnapFixedPoint(v, aTime);
      if bVisible {
        CalcPositionMonotone(v.scale, aTime, bTime);
      }
      SnappedTimeMonotone(v, aScreen, target);
    }
    if bVisible {
      SnapFixedPoint(v, bTime);
      if aVisible {
        CalcPositionMonotone(v.scale, aTime, bTime);
      }
      SnappedTimeMonotone(v, target, bScreen);
    }
  }

  /** The tick of the left edge: the edge lies between that tick and the next. */
  lemma LeftEdgeTick(s: Scale, left: real)
    requires s.segmentWidth > 0.0 && left >= s.begin
    ensures TickPosition(s, CalcTimeIndex(s, left, false)) <= left < TickPosition(s, CalcTimeIndex(s, left, false) + 1)
  {
    var w := s.segmentWidth;
    var ticks := (left - s.begin) / w;
    var k := CalcTimeIndex(s, left, false);
    assert k as real <= ticks < (k + 1) as real;
    assert ticks * w == left - s.begin;
    AtOrBelowScaled(s.begin, left, ticks, k as real, w);
    BelowScaled(s.begin, left, ticks, (k + 1) as real, w);
  }

  /** p - b = t·w with n ≤ t puts b + n·w at or below p. */
  lemma AtOrBelowScaled(b: real, p: real, t: real, n: real, w: real)
    requires w > 0.0 && t * w == p - b && n <= t
    ensures b + n * w <= p
  {
    assert n * w <= t * w;
  }

  /**
   * Items sit on their ticks around a hole: item i on tick i up to the hole
   * (-1 for none), and on tick i - 1 past it.
   */
  ghost predicate OnTicksAround(s: Scale, ps: seq<real>, hole: int)
  {
    forall i | 0 <= i < |ps| :: ps[i] == TickPosition(s, if 0 <= hole < i then i - 1 else i)
  }

  /** Moving the positions after k a segment left, from their ticks, puts them on their ticks around a hole at k. */
  lemma OnTicksAfterShiftLeft(s: Scale, ps: seq<real>, k: int)
    requires 0 <= k < |ps|
    ensures OnTicks(s, ps) ==> OnTicksAround(s, ShiftedFrom(ps, k + 1, -s.segmentWidth), k)
  {
    if OnTicks(s, ps) {
      var r := ShiftedFrom(ps, k + 1, -s.segmentWidth);
      forall i | k < i < |r|
        ensures r[i] == TickPosition(s, i - 1)
      {
        NextTick(s.begin, (i - 1) as real, s.segmentWidth);
      }
    }
  }

  /** Removing the hole puts every position on its own tick. */
  lemma OnTicksAfterRemove(s: Scale, ps: seq<real>, k: int)
    requires 0 <= k < |ps|
    ensures OnTicksAround(s, ps, k) ==> OnTicks(s, ps[..k] + ps[k + 1..])
  {
    var r := ps[..k] + ps[k + 1..];
    assert forall i | k <= i < |r| :: r[i] == ps[i + 1];
  }

  /** Removing an item removes its position. */
  lemma PositionsOfRemove(cs: seq<CircleIndicator>, k: int)
    requires 0 <= k < |cs|
    ensures PositionsOf(cs[..k] + cs[k + 1..]) == PositionsOf(cs)[..k] + PositionsOf(cs)[k + 1..]
  {
    var xs := cs[..k] + cs[k + 1..];
    var ps := PositionsOf(cs);
    var rest := ps[..k] + ps[k + 1..];
    PositionsOfIndex(cs);
    PositionsOfIndex(xs);
    forall i | 0 <= i < |xs|
      ensures PositionsOf(xs)[i] == rest[i]
    {
      if i < k {
        assert xs[i] == cs[i];
      } else {
        assert xs[i] == cs[i + 1];
      }
    }
  }

  /** Removing an item removes its timeline item. */
  lemma TimeItemsOfRemove(cs: seq<CircleIndicator>, k: int)
    requires 0 <= k < |cs|
    ensures TimeItemsOf(cs[..k] + cs[k + 1..]) == DeletedItems(TimeItemsOf(cs), k)
  {
  }

}
