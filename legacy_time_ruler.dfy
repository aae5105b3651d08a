/**
 * The older, integer-position time ruler: 3000 ticks 100 px (200 ms) apart in
 * normal mode, the same ten minutes spread over the screen in full mode, a
 * list of timeline items with item i on tick i, a playhead, an A-B range and
 * a stepped player that walks the playhead over the items.
 *
 * As for the newer ruler, animations, posted runnables and handler messages
 * become explicit completion methods (`FinishShow`, `FinishDelete`,
 * `PlayTick`, `RunQueuedReset`, ...) over pending-state fields, and every
 * listener callback is appended to `events`.
 */
module LegacyTimeRulers {
  import opened Wrappers
  import opened KotlinNumerics
  import opened RulerScale
  import opened TimeItems
  import opened RulerRules
  import opened LegacyScale
  import opened LegacyTimeIndicators
  import opened LegacyCircleIndicators
  import opened LegacyRangeIndicators

  /** The add or delete whose animation is still running. */
  datatype Operation =
    | Idle
    | Showing(shown: CircleIndicator)                 // the new item fades in
    | Deleting(removed: CircleIndicator, index: int)  // the item fades out; it leaves the list afterwards

  /** The item objects' timeline items, in order (`getTimeItems`). */
  function TimeItemsOf(cs: seq<CircleIndicator>): (ts: seq<TimeItem>)
    ensures |ts| == |cs| && forall i | 0 <= i < |cs| :: ts[i] == cs[i].timeItem
  {
    seq(|cs|, i requires 0 <= i < |cs| => cs[i].timeItem)
  }

  /** No item object is in the list twice. */
  predicate Distinct(cs: seq<CircleIndicator>)
  {
    forall i, j | 0 <= i < j < |cs| :: cs[i] != cs[j]
  }

  /**
   * The timeline position of item i while item `hole` fades out (-1 when none
   * does): its own tick, or one tick earlier for the items after the hole,
   * which have already moved up.
   */
  function Slot(i: int, hole: int): int
  {
    (if 0 <= hole < i then i - 1 else i) * SegmentWidth
  }

  /**
   * The index of the item on a timeline position when item i sits on tick i,
   * or -1: the position is a tick within the list exactly when some item is on it.
   */
  function SlotIndex(timePosition: int, size: int): (index: int)
    ensures index == -1 || 0 <= index < size
    ensures index != -1 ==> index * SegmentWidth == timePosition
    ensures index == -1 ==> forall i | 0 <= i < size :: i * SegmentWidth != timePosition
  {
    if timePosition >= 0 && OnTick(timePosition) && TickIndex(timePosition) < size then TickIndex(timePosition) else -1
  }

  /**
   * The position `getCurrentTimeIndex` looks up, as written: in full mode it
   * converts the normal-mode position as if it were a full-mode one.
   */
  function CurrentTimePositionAsWritten(g: Geometry, fullMode: bool, timePosition: int, timePositionInFullMode: real): int
    requires g.Valid()
  {
    if fullMode then ConvertToTimePosition(g, timePosition as real) else timePosition
  }

  /**
   * The position `getCurrentTimeIndex` is meant to look up: the playhead's
   * position in normal mode, its full-mode position converted back in full mode.
   */
  function CurrentTimePosition(g: Geometry, fullMode: bool, timePosition: int, timePositionInFullMode: real): (p: int)
    requires g.Valid()
    ensures !fullMode ==> p == timePosition
    ensures fullMode && OnFullGrid(g, timePositionInFullMode) ==> OnTick(p)
    ensures fullMode && timePositionInFullMode >= 0.0 ==> p >= 0
  {
    if fullMode then
      ConvertToTimePosition(g, timePositionInFullMode)
    else timePosition
  }

  /**
   * After a switch to full mode the playhead's full-mode position is the
   * conversion of its tick; the intended lookup finds that tick again.
   */
  lemma CurrentTimePositionAfterSwitch(g: Geometry, t: int)
    requires g.Valid() && OnTick(t)
    ensures CurrentTimePosition(g, true, t, ConvertToFullModeTimePosition(g, t)) == t
  {
    ConvertRoundTrip(g, t);
  }

  /**
   * As written the lookup goes astray: on a 400 px screen with 50 px offsets
   * (2000 ms per full-mode pixel), a playhead on tick 1 (position 100) is
   * looked up at position 100000, not 100.
   */
  lemma CurrentTimePositionCounterexample()
    ensures var g := Geometry(400, 0, 0, 50, 50);
      && g.Valid()
      && CurrentTimePositionAsWritten(g, true, 100, ConvertToFullModeTimePosition(g, 100)) == 100000
      && CurrentTimePosition(g, true, 100, ConvertToFullModeTimePosition(g, 100)) == 100
  {
    var g := Geometry(400, 0, 0, 50, 50);
    assert g.TimeOfPerPixel() == 2000.0;
    WholeNumbersFixed(100000);
    CurrentTimePositionAfterSwitch(g, 100);
  }

  /** A non-negative full-mode position converts to a non-negative normal-mode one. */
  lemma ConvertToTimePositionNonNegative(g: Geometry, p: real)
    requires g.Valid() && p >= 0.0
    ensures ConvertToTimePosition(g, p) >= 0
  {
    ScaleByPositiveFactor(0.0, p, g.TimeOfPerPixel());
  }

  /**
   * Converting a tick to full mode keeps the time the playhead's listener
   * reports: the full-mode time of the converted position is the tick's time.
   */
  lemma SwitchKeepsTime(g: Geometry, t: int)
    requires g.Valid() && t >= 0
    ensures FullMillisecond(g, ConvertToFullModeTimePosition(g, t)) == NormalMillisecond(t)
  {
    var k, p := TickIndex(t), ConvertToFullModeTimePosition(g, t);
    var ms := FullMillisecond(g, p);
    assert p * g.TimeOfPerPixel() == (k * Quantum) as real;
    assert ms <= k * Quantum < ms + Quantum;
    assert ms % Quantum == 0;
  }

  /**
   * The screen position of a tick settles on that tick, unless the ruler is
   * scrolled past its beginning by more than the tick lies after the start offset.
   */
  lemma TickScreenSettles(v: View, t: int)
    requires v.Valid() && OnTick(t) && 0 <= t <= SegmentMaxWidth
    requires v.currentLeft >= 0.0 || v.g.startOffset <= t
    ensures SettledTimePosition(v, t as real - v.currentLeft) == t
  {
    ClampedOfTickScreen(v, t);
    NearestTickOfTick(t);
  }

  /**
   * The screen position the playhead was last drawn at (its timeline position
   * less the scroll offset, truncated), moved one segment on, is a position on
   * the ruler, and it settles on the next tick under the start-offset proviso.
   */
  lemma NextTickFromDrawnSettles(v: View, t: int)
    requires v.Valid() && OnTick(t) && t >= 0
    ensures var p := (TruncToInt(t as real - v.currentLeft) + SegmentWidth) as real;
      v.currentLeft < 0.0 || v.currentLeft + p >= 0.0
    ensures t + SegmentWidth <= SegmentMaxWidth && (v.currentLeft >= 0.0 || v.g.startOffset <= t + SegmentWidth)
      ==> SettledTimePosition(v, (TruncToInt(t as real - v.currentLeft) + SegmentWidth) as real) == t + SegmentWidth
  {
    if v.currentLeft < 0.0 {
      NextTickDrawnBeforeStart(v, t);
    } else {
      NextTickDrawnAfterStart(v, t);
    }
  }

  /** NextTickFromDrawnSettles while the beginning of the ruler is shown. */
  lemma NextTickDrawnBeforeStart(v: View, t: int)
    requires v.Valid() && OnTick(t) && t >= 0 && v.currentLeft < 0.0
    ensures t + SegmentWidth <= SegmentMaxWidth && v.g.startOffset <= t + SegmentWidth ==>
      SettledTimePosition(v, (TruncToInt(t as real - v.currentLeft) + SegmentWidth) as real) == t + SegmentWidth
  {
    var cl := v.currentLeft;
    var d := TruncToInt(t as real - cl);
    var p := (d + SegmentWidth) as real;
    var n := t + SegmentWidth;
    assert OnTick(n);
    if n > SegmentMaxWidth || v.g.startOffset > n {
      return;
    }
    assert t as real - cl == t as real + (-cl);
    TruncAddWhole(t, -cl);
    TruncOfNegative(cl);
    WholeNumbersFixed(d + SegmentWidth);
    assert TruncToInt(p) + TruncToInt(cl) == n;
    NearestTickOfTick(n);
  }

  /** NextTickFromDrawnSettles once the ruler is scrolled past its beginning. */
  lemma NextTickDrawnAfterStart(v: View, t: int)
    requires v.Valid() && OnTick(t) && t >= 0 && v.currentLeft >= 0.0
    ensures v.currentLeft + (TruncToInt(t as real - v.currentLeft) + SegmentWidth) as real >= 0.0
    ensures t + SegmentWidth <= SegmentMaxWidth
      ==> SettledTimePosition(v, (TruncToInt(t as real - v.currentLeft) + SegmentWidth) as real) == t + SegmentWidth
  {
    var cl := v.currentLeft;
    var d := TruncToInt(t as real - cl);
    var p := (d + SegmentWidth) as real;
    var n := t + SegmentWidth;
    assert OnTick(n);
    var c := TruncToInt(cl + p);
    assert n - 1 <= c <= n;
    if n <= SegmentMaxWidth {
      if c == n - 1 {
        assert KDiv(n - 1, SegmentWidth) == n / SegmentWidth - 1;
      } else {
        NearestTickOfTick(n);
      }
    }
  }

  /** The ticks next to a tick are ticks. */
  lemma NeighbourTicks(t: int)
    requires OnTick(t)
    ensures OnTick(t - SegmentWidth) && OnTick(t + SegmentWidth)
  {
  }

  /**
   * The full-mode guard on the last item's tick, as a time: a full-mode
   * position is not right of tick n − 1 exactly when its time is not after
   * that tick's.
   */
  lemma WithinLastTickByTime(g: Geometry, p: real, n: int)
    requires g.Valid() && n >= 1
    ensures p <= ConvertToFullModeTimePosition(g, (n - 1) * SegmentWidth)
      <==> p * g.TimeOfPerPixel() <= ((n - 1) * Quantum) as real
  {
    var tpp := g.TimeOfPerPixel();
    var m := ConvertToFullModeTimePosition(g, (n - 1) * SegmentWidth);
    assert TickIndex((n - 1) * SegmentWidth) == n - 1;
    assert m * tpp == ((n - 1) * Quantum) as real;
    if p <= m {
      ScaleByPositiveFactor(p, m, tpp);
    } else {
      assert p * tpp - m * tpp == (p - m) * tpp;
      assert (p - m) * tpp > 0.0;
    }
  }

  /** Two different ticks are at least a segment apart. */
  lemma TicksApart(a: int, b: int)
    requires OnTick(a) && OnTick(b) && a < b
    ensures a + SegmentWidth <= b
  {
    assert a == (a / SegmentWidth) * SegmentWidth && b == (b / SegmentWidth) * SegmentWidth;
  }

  /** Inserting a new object keeps the list free of repeats. */
  lemma DistinctInsert(cs: seq<CircleIndicator>, k: int, c: CircleIndicator)
    requires 0 <= k <= |cs| && Distinct(cs) && c !in cs
    ensures Distinct(cs[..k] + [c] + cs[k..])
  {
    var r := cs[..k] + [c] + cs[k..];
    forall i, j | 0 <= i < j < |r|
      ensures r[i] != r[j]
    {
      if i == k {
        assert r[j] in cs;
      } else if j == k {
        assert r[i] in cs;
      }
    }
  }

  /** Removing an object keeps the list free of repeats. */
  lemma DistinctRemove(cs: seq<CircleIndicator>, k: int)
    requires 0 <= k < |cs| && Distinct(cs)
    ensures Distinct(cs[..k] + cs[k + 1..])
  {
    var r := cs[..k] + cs[k + 1..];
    forall i, j | 0 <= i < j < |r|
      ensures r[i] != r[j]
    {
      assert r[i] == cs[if i < k then i else i + 1];
      assert r[j] == cs[if j < k then j else j + 1];
    }
  }

  /** Two distinct lists with no object in common make a distinct list. */
  lemma DistinctConcat(cs: seq<CircleIndicator>, ds: seq<CircleIndicator>)
    requires Distinct(cs) && Distinct(ds) && forall i | 0 <= i < |ds| :: ds[i] !in cs
    ensures Distinct(cs + ds)
  {
    var r := cs + ds;
    forall i, j | 0 <= i < j < |r|
      ensures r[i] != r[j]
    {
      if |cs| <= j {
        assert r[j] == ds[j - |cs|];
        if |cs| <= i {
          assert r[i] == ds[i - |cs|];
        } else {
          assert r[i] in cs;
        }
      }
    }
  }

  /**
   * `addTimeItem`'s padding: new empty items on the ticks from .. k - 1, none
   * of them among `others`.
   */
  method MakePads(from: int, k: int, playheadPosition: int, radius: int, top: real, others: seq<CircleIndicator>)
    returns (pads: seq<CircleIndicator>)
    requires from <= k
    ensures |pads| == k - from && Distinct(pads)
    ensures forall i | 0 <= i < |pads| ::
      && fresh(pads[i]) && pads[i] !in others && pads[i].timeItem == EmptyItem()
      && pads[i].timePosition == (from + i) * SegmentWidth
  {
    pads := [];
    var index := from;
    while index < k
      invariant from <= index <= k && |pads| == index - from && Distinct(pads)
      invariant forall i | 0 <= i < |pads| ::
        && fresh(pads[i]) && pads[i] !in others && pads[i].timeItem == EmptyItem()
        && pads[i].timePosition == (from + i) * SegmentWidth
    {
      var pad := new CircleIndicator(EmptyItem(), index * SegmentWidth, playheadPosition, radius, top);
      DistinctInsert(pads, |pads|, pad);
      pads := pads + [pad];
      index := index + 1;
    }
  }

  /** Inserting an item at k inserts its timeline item at k. */
  lemma TimeItemsOfInsert(cs: seq<CircleIndicator>, k: int, c: CircleIndicator)
    requires 0 <= k < |cs|
    ensures TimeItemsOf(cs[..k] + [c] + cs[k..]) == AddedItems(TimeItemsOf(cs), k, c.timeItem)
  {
  }

  /** Padding with empty items up to k and appending an item at k appends its timeline item at k. */
  lemma TimeItemsOfAppend(cs: seq<CircleIndicator>, ds: seq<CircleIndicator>, k: int)
    requires |cs| <= k && |ds| == k + 1 && ds[..|cs|] == cs
    requires forall i | |cs| <= i < k :: ds[i].timeItem == EmptyItem()
    ensures TimeItemsOf(ds) == AddedItems(TimeItemsOf(cs), k, ds[k].timeItem)
  {
    assert forall i | 0 <= i < |cs| :: ds[i] == cs[i];
  }

  /** Removing an item removes its timeline item. */
  lemma TimeItemsOfRemove(cs: seq<CircleIndicator>, k: int)
    requires 0 <= k < |cs|
    ensures TimeItemsOf(cs[..k] + cs[k + 1..]) == DeletedItems(TimeItemsOf(cs), k)
  {
  }

  class TimeRuler {
    const g: Geometry
    /** The middle of the view: the player keeps the playhead there. */
    const screenCenterPosition: int
    const circleRadius: int
    const circleTop: real
    const timeIndicator: TimeIndicator
    const playIndicator: TimeIndicator
    const rangeIndicator: RangeIndicator

    var isFullMode: bool
    var currentLeft: real
    var currentLeftIndex: int

    /** `timeItemList`. */
    var items: seq<CircleIndicator>
    var isOperating: bool
    var operation: Operation
    /** The item index of the previous touch, for the two-tap click rule. */
    var latestTimeIndex: int

    var isPlaying: bool
    var isRepeatPlay: bool
    var isNeedToPlay: bool
    var isCalledStart: bool
    var isAnimatorEnable: bool
    var isCancel: bool
    var isNeedResetPlayIndicator: bool
    var startPlayTimePosition: int
    var startPlayRealPosition: int
    var startPlayTimeIndex: int
    var stopPlayTimeIndex: int

    /** A message is queued for the stepped player (`playHandler`). */
    var tickQueued: bool
    /** `resetPlayTime` is posted to the stepped player's handler. */
    var resetQueued: bool
    /** The scroll offset the centring animation is heading for, while it runs. */
    var centering: Option<real>
    /** `preparePlay` calls posted by the end of the centring animation. */
    var preparePosts: nat
    /** The play animation runs. */
    var playAnimating: bool

    /** Every listener callback so far, oldest first. */
    var events: seq<Event>

    /** The ruler's objects: measurements, indicators, markers and items. */
    ghost predicate Valid()
      reads this`isFullMode, this`isOperating, this`operation, this`items, items`timePosition
      reads rangeIndicator`isIndicatorAVisible, rangeIndicator`isIndicatorBVisible
      reads timeIndicator`timePosition, timeIndicator`timePositionInFullMode
      reads rangeIndicator.markerA`timePosition, rangeIndicator.markerA`timePositionInFullMode
      reads rangeIndicator.markerB`timePosition, rangeIndicator.markerB`timePositionInFullMode
    {
      && g.Valid()
      && IndicatorsDistinct()
      && rangeIndicator.Valid()
      && Placed(timeIndicator) && Placed(rangeIndicator.markerA) && Placed(rangeIndicator.markerB)
      && ItemsValid()
    }

    /** The four markers are distinct objects. */
    ghost predicate IndicatorsDistinct()
    {
      && timeIndicator != playIndicator
      && timeIndicator != rangeIndicator.markerA && timeIndicator != rangeIndicator.markerB
      && playIndicator != rangeIndicator.markerA && playIndicator != rangeIndicator.markerB
    }

    /** A marker sits on a tick of the ruler in both modes. */
    ghost predicate Placed(t: TimeIndicator)
      reads t`timePosition, t`timePositionInFullMode
    {
      && g.Valid()
      && t.timePosition >= 0 && OnTick(t.timePosition)
      && t.timePositionInFullMode >= 0.0 && OnFullGrid(g, t.timePositionInFullMode)
    }

    /**
     * The items are distinct and item i sits on tick i (one tick earlier past
     * an item that fades out); an add or delete runs only in normal mode.
     */
    ghost predicate ItemsValid()
      reads this`isFullMode, this`isOperating, this`operation, this`items, items`timePosition
    {
      && (isOperating <==> !operation.Idle?)
      && (isFullMode ==> !isOperating)
      && Distinct(items)
      && (forall i | 0 <= i < |items| :: items[i].timePosition == Slot(i, Hole()))
      && (operation.Showing? ==> operation.shown in items)
      && (operation.Deleting? ==> 0 <= operation.index < |items| && items[operation.index] == operation.removed)
    }

    /** The index of the item that is fading out, or -1. */
    function Hole(): int
      reads this`operation
    {
      if operation.Deleting? then operation.index else -1
    }

    /** What the indicators read from the ruler. */
    function CurrentView(): (v: View)
      reads this`currentLeft, this`isFullMode
      ensures v.g == g && v.currentLeft == currentLeft && v.fullMode == isFullMode
    {
      View(g, currentLeft, isFullMode)
    }

    /** The timeline items in list order (`getTimeItems`). */
    function TimeItems(): seq<TimeItem>
      reads this`items
    {
      TimeItemsOf(items)
    }

    /**
     * A screen position the playhead may settle at: once the ruler is
     * scrolled, not left of tick 0.
     */
    predicate OnRuler(position: real)
      reads this`isFullMode, this`currentLeft
    {
      isFullMode || currentLeft < 0.0 || currentLeft + position >= 0.0
    }

    /**
     * The time the playhead's listener reports: in normal mode the time of the
     * playhead's tick, in full mode the time of its position, truncated to the
     * 200 ms grid.
     */
    function PlayheadMillisecond(): (ms: int)
      requires g.Valid()
      reads this`isFullMode, timeIndicator`timePosition, timeIndicator`timePositionInFullMode
      ensures ms % Quantum == 0
      ensures timeIndicator.timePosition >= 0 && timeIndicator.timePositionInFullMode >= 0.0 ==> ms >= 0
      ensures !isFullMode ==> ms == TickIndex(timeIndicator.timePosition) * Quantum
    {
      if isFullMode then FullMillisecond(g, timeIndicator.timePositionInFullMode)
      else NormalMillisecond(timeIndicator.timePosition)
    }

    /**
     * `getTimeIndex()`: the tick index of the playhead.  With every item on its
     * own tick, the item with that index, if any, is the item under the playhead.
     */
    function PlayheadIndex(): (k: int)
      requires Valid()
      reads this`isFullMode, this`isOperating, this`operation, this`items, items`timePosition
      reads rangeIndicator`isIndicatorAVisible, rangeIndicator`isIndicatorBVisible
      reads timeIndicator`timePosition, timeIndicator`timePositionInFullMode
      reads rangeIndicator.markerA`timePosition, rangeIndicator.markerA`timePositionInFullMode
      reads rangeIndicator.markerB`timePosition, rangeIndicator.markerB`timePositionInFullMode
      ensures k >= 0 && k * SegmentWidth == timeIndicator.timePosition
      ensures Hole() == -1 && k < |items| ==> items[k].timePosition == timeIndicator.timePosition
    {
      TickIndex(timeIndicator.timePosition)
    }

    /**
     * A ruler in normal mode scrolled to show its beginning (scroll offset
     * -startOffset), without items, with the playhead on tick 0 and no range.
     */
    constructor (g: Geometry, circleRadius: int, circleTop: real, rulerStartTop: real,
                 markerWidth: int, markerHeight: int, playWidth: int, playHeight: int, playOffsetY: int,
                 rangeWidth: int, rangeHeight: int, rangeShiftX: int, rangeShiftY: int,
                 touchWidthA: int, touchWidthB: int, touchHeight: int)
      requires g.Valid()
      ensures Valid() && Hole() == -1
      ensures this.g == g && !isFullMode && currentLeft == -(g.startOffset as real)
      ensures items == [] && !isOperating && !isPlaying && events == []
      ensures timeIndicator.timePosition == 0 && timeIndicator.isVisible && !playIndicator.isVisible
      ensures !rangeIndicator.isIndicatorAVisible && !rangeIndicator.isIndicatorBVisible
    {
      this.g := g;
      screenCenterPosition := g.Center();
      this.circleRadius := circleRadius;
      this.circleTop := circleTop;
      var t := new TimeIndicator(rulerStartTop, markerWidth, markerHeight, 0, 0);
      var p := new TimeIndicator(rulerStartTop, playWidth, playHeight, 0, playOffsetY);
      var r := new RangeIndicator(rulerStartTop, rangeWidth, rangeHeight, rangeShiftX, rangeShiftY,
                                  touchWidthA, touchWidthB, touchHeight);
      timeIndicator := t;
      playIndicator := p;
      rangeIndicator := r;
      isFullMode := false;
      currentLeft := -(g.startOffset as real);
      currentLeftIndex := 0;
      items := [];
      isOperating := false;
      operation := Idle;
      latestTimeIndex := 0;
      isPlaying := false;
      isRepeatPlay := false;
      isNeedToPlay := false;
      isCalledStart := false;
      isAnimatorEnable := true;
      isCancel := false;
      isNeedResetPlayIndicator := false;
      startPlayTimePosition := 0;
      startPlayRealPosition := 0;
      startPlayTimeIndex := 0;
      stopPlayTimeIndex := 0;
      tickQueued := false;
      resetQueued := false;
      centering := None;
      preparePosts := 0;
      playAnimating := false;
      events := [];
      new;
      p.isVisible := false;
      ConvertRoundTrip(g, 0);
      assert ConvertToFullModeTimePosition(g, 0) == 0.0;
    }

    /** Append callbacks to the log. */
    method Emit(es: seq<Event>)
      modifies this`events
      ensures events == old(events) + es
    {
      events := events + es;
    }

    /**
     * `computeTime`: hold the scroll offset between -startOffset and the
     * offset that puts the end of the ruler at the right screen edge, and
     * recompute the tick at the left edge of the screen.
     */
    method ComputeTime()
      modifies this`currentLeft, this`currentLeftIndex
      ensures currentLeft == ClampCurrentLeft(g, old(currentLeft))
      ensures -(g.startOffset as real) <= g.MaxLeft() ==> -(g.startOffset as real) <= currentLeft <= g.MaxLeft()
      ensures currentLeft >= 0.0 ==>
        (currentLeftIndex * SegmentWidth) as real <= currentLeft < ((currentLeftIndex + 1) * SegmentWidth) as real
    {
      if currentLeft < -(g.startOffset as real) {
        currentLeft := -(g.startOffset as real);
      }
      if currentLeft + g.screenWidth as real > (TotalSegmentCount * SegmentWidth + g.endOffset) as real {
        currentLeft := (TotalSegmentCount * SegmentWidth + g.endOffset) as real - g.screenWidth as real;
      }
      currentLeftIndex := CurrentLeftIndex(currentLeft);
    }

    /**
     * `timeIndicator.updatePosition(position)` followed by its listener
     * (`onPositionChanged`) when it fires: the playhead settles on a tick
     * (normal mode) or on the 200 ms grid (full mode), and a change reports
     * its time with the item on that tick, if any.
     */
    method UpdatePlayhead(position: real) returns (notified: bool)
      requires Valid() && OnRuler(position)
      modifies this`events, timeIndicator
      ensures Valid() && unchanged(timeIndicator`isVisible, timeIndicator`isDragging)
      ensures unchanged(rangeIndicator.markerA, rangeIndicator.markerB)
      ensures !isFullMode ==> timeIndicator.timePosition == SettledTimePosition(CurrentView(), position)
      ensures !isFullMode ==> timeIndicator.timePositionInFullMode == old(timeIndicator.timePositionInFullMode)
      ensures isFullMode ==> timeIndicator.timePositionInFullMode == SnappedFullPosition(g, position)
      ensures isFullMode ==> timeIndicator.timePosition == old(timeIndicator.timePosition)
      ensures !isFullMode ==> (notified <==> old(timeIndicator.oldTimePosition) != timeIndicator.timePosition)
      ensures isFullMode ==> (notified <==> old(timeIndicator.oldMillisecond) != timeIndicator.oldMillisecond)
      ensures notified ==> events == old(events) + PositionChangedEvents(PlayheadMillisecond(), TimeItems())
      ensures !notified ==> events == old(events)
    {
      notified := timeIndicator.UpdatePosition(CurrentView(), position);
      if notified {
        Emit(PositionChangedEvents(PlayheadMillisecond(), TimeItems()));
      }
    }


    /**
     * Where the range's listener moves the playhead: onto A when it lies
     * before a shown A, else onto B when it lies after a shown B (as screen
     * positions of the current mode); nowhere when it lies within the range.
     */
    function RangeCorrection(): Option<real>
      reads this`isFullMode, this`currentLeft, rangeIndicator`isIndicatorAVisible, rangeIndicator`isIndicatorBVisible
      reads timeIndicator`timePosition, timeIndicator`timePositionInFullMode
      reads rangeIndicator.markerA`timePosition, rangeIndicator.markerA`timePositionInFullMode
      reads rangeIndicator.markerB`timePosition, rangeIndicator.markerB`timePositionInFullMode
    {
      var a, b := rangeIndicator.markerA, rangeIndicator.markerB;
      if !isFullMode then
        if rangeIndicator.isIndicatorAVisible && timeIndicator.timePosition < a.timePosition then
          Some(a.timePosition as real - currentLeft)
        else if rangeIndicator.isIndicatorBVisible && timeIndicator.timePosition > b.timePosition then
          Some(b.timePosition as real - currentLeft)
        else None
      else
        if rangeIndicator.isIndicatorAVisible && timeIndicator.timePositionInFullMode < a.timePositionInFullMode then
          Some(a.timePositionInFullMode + g.startOffset as real)
        else if rangeIndicator.isIndicatorBVisible && timeIndicator.timePositionInFullMode > b.timePositionInFullMode then
          Some(b.timePositionInFullMode + g.startOffset as real)
        else None
    }

    /**
     * The range's listener (`onPositionChanged` of the range indicator), run
     * when a marker settles somewhere new: a playhead before A is pulled onto
     * A, else a playhead after B onto B.  In normal mode it lands exactly on
     * the marker's tick unless the ruler is scrolled past its beginning by
     * more than the tick lies after the start offset.
     */
    method OnRangeChanged()
      requires Valid()
      modifies this`events, timeIndicator
      ensures Valid() && unchanged(timeIndicator`isVisible, timeIndicator`isDragging)
      ensures unchanged(rangeIndicator.markerA, rangeIndicator.markerB)
      ensures var a := rangeIndicator.markerA.timePosition;
        !isFullMode && rangeIndicator.isIndicatorAVisible && old(timeIndicator.timePosition) < a
        && a <= SegmentMaxWidth && (currentLeft >= 0.0 || g.startOffset <= a)
        ==> timeIndicator.timePosition == a
      ensures var a, b := rangeIndicator.markerA.timePosition, rangeIndicator.markerB.timePosition;
        !isFullMode && !(rangeIndicator.isIndicatorAVisible && old(timeIndicator.timePosition) < a)
        && rangeIndicator.isIndicatorBVisible && old(timeIndicator.timePosition) > b
        && b <= SegmentMaxWidth && (currentLeft >= 0.0 || g.startOffset <= b)
        ==> timeIndicator.timePosition == b
      ensures var a := rangeIndicator.markerA.timePositionInFullMode;
        isFullMode && rangeIndicator.isIndicatorAVisible && old(timeIndicator.timePositionInFullMode) < a
        ==> timeIndicator.timePositionInFullMode == SnappedFullPosition(g, a + g.startOffset as real)
      ensures var a, b := rangeIndicator.markerA.timePositionInFullMode, rangeIndicator.markerB.timePositionInFullMode;
        isFullMode && !(rangeIndicator.isIndicatorAVisible && old(timeIndicator.timePositionInFullMode) < a)
        && rangeIndicator.isIndicatorBVisible && old(timeIndicator.timePositionInFullMode) > b
        ==> timeIndicator.timePositionInFullMode == SnappedFullPosition(g, b + g.startOffset as real)
      ensures old(RangeCorrection()).None? ==> unchanged(timeIndicator) && events == old(events)
      ensures events == old(events) || events == old(events) + PositionChangedEvents(PlayheadMillisecond(), TimeItems())
    {
      if !isFullMode {
        OnRangeChangedInNormalMode();
      } else {
        OnRangeChangedInFullMode();
      }
    }

    /** The range's listener in normal mode. */
    method OnRangeChangedInNormalMode()
      requires Valid() && !isFullMode
      modifies this`events, timeIndicator
      ensures Valid() && unchanged(timeIndicator`isVisible, timeIndicator`isDragging)
      ensures unchanged(rangeIndicator.markerA, rangeIndicator.markerB)
      ensures var a := rangeIndicator.markerA.timePosition;
        rangeIndicator.isIndicatorAVisible && old(timeIndicator.timePosition) < a
        && a <= SegmentMaxWidth && (currentLeft >= 0.0 || g.startOffset <= a)
        ==> timeIndicator.timePosition == a
      ensures var a, b := rangeIndicator.markerA.timePosition, rangeIndicator.markerB.timePosition;
        !(rangeIndicator.isIndicatorAVisible && old(timeIndicator.timePosition) < a)
        && rangeIndicator.isIndicatorBVisible && old(timeIndicator.timePosition) > b
        && b <= SegmentMaxWidth && (currentLeft >= 0.0 || g.startOffset <= b)
        ==> timeIndicator.timePosition == b
      ensures timeIndicator.timePositionInFullMode == old(timeIndicator.timePositionInFullMode)
      ensures old(RangeCorrection()).None? ==> unchanged(timeIndicator) && events == old(events)
      ensures events == old(events) || events == old(events) + PositionChangedEvents(PlayheadMillisecond(), TimeItems())
    {
      RangeCorrectionLands();
      var target := RangeCorrection();
      if target.Some? {
        var notified := UpdatePlayhead(target.value);
      }
    }

    /**
     * In normal mode the range's correction is a position on the ruler, and
     * one that settles on the marker's own tick under the start-offset proviso.
     */
    lemma RangeCorrectionLands()
      requires Valid() && !isFullMode
      ensures RangeCorrection().Some? ==> OnRuler(RangeCorrection().value)
      ensures var a := rangeIndicator.markerA.timePosition;
        rangeIndicator.isIndicatorAVisible && timeIndicator.timePosition < a
        && a <= SegmentMaxWidth && (currentLeft >= 0.0 || g.startOffset <= a)
        ==> RangeCorrection().Some? && SettledTimePosition(CurrentView(), RangeCorrection().value) == a
      ensures var a, b := rangeIndicator.markerA.timePosition, rangeIndicator.markerB.timePosition;
        !(rangeIndicator.isIndicatorAVisible && timeIndicator.timePosition < a)
        && rangeIndicator.isIndicatorBVisible && timeIndicator.timePosition > b
        && b <= SegmentMaxWidth && (currentLeft >= 0.0 || g.startOffset <= b)
        ==> RangeCorrection().Some? && SettledTimePosition(CurrentView(), RangeCorrection().value) == b
    {
      TickScreenSettlesWhenOnRuler(rangeIndicator.markerA.timePosition);
      TickScreenSettlesWhenOnRuler(rangeIndicator.markerB.timePosition);
    }

    /** The range's listener in full mode. */
    method OnRangeChangedInFullMode()
      requires Valid() && isFullMode
      modifies this`events, timeIndicator
      ensures Valid() && unchanged(timeIndicator`isVisible, timeIndicator`isDragging)
      ensures unchanged(rangeIndicator.markerA, rangeIndicator.markerB)
      ensures var a := rangeIndicator.markerA.timePositionInFullMode;
        rangeIndicator.isIndicatorAVisible && old(timeIndicator.timePositionInFullMode) < a
        ==> timeIndicator.timePositionInFullMode == SnappedFullPosition(g, a + g.startOffset as real)
      ensures var a, b := rangeIndicator.markerA.timePositionInFullMode, rangeIndicator.markerB.timePositionInFullMode;
        !(rangeIndicator.isIndicatorAVisible && old(timeIndicator.timePositionInFullMode) < a)
        && rangeIndicator.isIndicatorBVisible && old(timeIndicator.timePositionInFullMode) > b
        ==> timeIndicator.timePositionInFullMode == SnappedFullPosition(g, b + g.startOffset as real)
      ensures old(RangeCorrection()).None? ==> unchanged(timeIndicator) && events == old(events)
      ensures events == old(events) || events == old(events) + PositionChangedEvents(PlayheadMillisecond(), TimeItems())
    {
      var target := RangeCorrection();
      if target.Some? {
        var notified := UpdatePlayhead(target.value);
      }
    }

    /** `TickScreenSettles` for the ruler's own view, with its proviso as an implication. */
    lemma TickScreenSettlesWhenOnRuler(t: int)
      requires g.Valid()
      ensures OnTick(t) && 0 <= t <= SegmentMaxWidth && (currentLeft >= 0.0 || g.startOffset <= t)
              ==> SettledTimePosition(CurrentView(), t as real - currentLeft) == t
    {
      if OnTick(t) && 0 <= t <= SegmentMaxWidth && (currentLeft >= 0.0 || g.startOffset <= t) {
        TickScreenSettles(CurrentView(), t);
      }
    }

    /**
     * `getTimeIndex(timePosition)`: the index of the last item on that
     * timeline position, or -1.  With every item on its own tick this is the
     * item of that tick, if the list reaches it.
     */
    method GetTimeIndex(timePosition: int) returns (index: int)
      ensures -1 <= index < |items|
      ensures index != -1 ==> items[index].timePosition == timePosition
      ensures forall i | index < i < |items| :: items[i].timePosition != timePosition
      ensures ItemsValid() && Hole() == -1 ==> index == SlotIndex(timePosition, |items|)
    {
      index := -1;
      var i := 0;
      while i < |items|
        invariant 0 <= i <= |items| && -1 <= index < i
        invariant index != -1 ==> items[index].timePosition == timePosition
        invariant forall j | index < j < i :: items[j].timePosition != timePosition
      {
        if timePosition == items[i].timePosition {
          index := i;
        }
        i := i + 1;
      }
      if ItemsValid() && Hole() == -1 {
        var s := SlotIndex(timePosition, |items|);
        if s != -1 {
          assert items[s].timePosition == timePosition;
        }
      }
    }

    /**
     * `getCurrentTimeIndex`, as intended: the index of the item under the
     * playhead, or -1.  In normal mode that is the playhead's tick index when
     * the list reaches it.
     */
    method GetCurrentTimeIndex() returns (index: int)
      requires Valid()
      ensures -1 <= index < |items|
      ensures Hole() == -1 ==>
        index == SlotIndex(CurrentTimePosition(g, isFullMode, timeIndicator.timePosition, timeIndicator.timePositionInFullMode), |items|)
      ensures Hole() == -1 && !isFullMode ==> index == (if PlayheadIndex() < |items| then PlayheadIndex() else -1)
    {
      var timePosition := CurrentTimePosition(g, isFullMode, timeIndicator.timePosition, timeIndicator.timePositionInFullMode);
      index := GetTimeIndex(timePosition);
    }

    /**
     * Where `updateTimeIndicatorPosition` settles the playhead for a touch:
     * at A when the touch is before a shown A, at B when it is after a shown
     * B, else at the touch.
     */
    function TouchTarget(x: real): real
      reads this`isFullMode, this`currentLeft, rangeIndicator`isIndicatorAVisible, rangeIndicator`isIndicatorBVisible
      reads rangeIndicator.markerA`timePosition, rangeIndicator.markerA`currentPositionInFullMode
      reads rangeIndicator.markerB`timePosition, rangeIndicator.markerB`currentPositionInFullMode
    {
      var v := CurrentView();
      if rangeIndicator.isIndicatorAVisible && x < rangeIndicator.GetIndicatorAPosition(v) then
        rangeIndicator.GetIndicatorAPosition(v)
      else if rangeIndicator.isIndicatorBVisible && x > rangeIndicator.GetIndicatorBPosition(v) then
        rangeIndicator.GetIndicatorBPosition(v)
      else x
    }

    /**
     * In normal mode a touch settles the playhead within the range: no
     * earlier than a shown A and no later than a shown B (for B, with the
     * start-offset proviso of `BoundedByTick`), provided A is not after B.
     */
    lemma TouchTargetWithinRange(x: real)
      requires Valid()
      ensures OnRuler(x) ==> OnRuler(TouchTarget(x))
      ensures var a, b := rangeIndicator.markerA.timePosition, rangeIndicator.markerB.timePosition;
        !isFullMode && rangeIndicator.isIndicatorAVisible && a <= SegmentMaxWidth && (rangeIndicator.isIndicatorBVisible ==> a <= b)
        ==> a <= SettledTimePosition(CurrentView(), TouchTarget(x))
      ensures var a, b := rangeIndicator.markerA.timePosition, rangeIndicator.markerB.timePosition;
        !isFullMode && rangeIndicator.isIndicatorBVisible && a <= b && (currentLeft >= 0.0 || g.startOffset <= b + SegmentWidth / 2)
        ==> SettledTimePosition(CurrentView(), TouchTarget(x)) <= b
    {
      var v := CurrentView();
      var a, b := rangeIndicator.markerA.timePosition, rangeIndicator.markerB.timePosition;
      var target := TouchTarget(x);
      if !isFullMode && rangeIndicator.isIndicatorAVisible && a <= SegmentMaxWidth && (rangeIndicator.isIndicatorBVisible ==> a <= b) {
        BoundsTick(v, target, a);
      }
      if !isFullMode && rangeIndicator.isIndicatorBVisible && a <= b && (currentLeft >= 0.0 || g.startOffset <= b + SegmentWidth / 2) {
        BoundedByTick(v, target, b);
      }
    }

    /**
     * `updateTimeIndicatorPosition`: settle the playhead at a touch position,
     * held within the range; returns whether the playhead's listener ran.
     */
    method UpdateTimeIndicatorPosition(x: real) returns (notified: bool)
      requires Valid() && OnRuler(x)
      modifies this`events, timeIndicator
      ensures Valid() && unchanged(timeIndicator`isVisible, timeIndicator`isDragging)
      ensures var a, b := rangeIndicator.markerA.timePosition, rangeIndicator.markerB.timePosition;
        !isFullMode && rangeIndicator.isIndicatorAVisible && a <= SegmentMaxWidth && (rangeIndicator.isIndicatorBVisible ==> a <= b)
        ==> a <= timeIndicator.timePosition
      ensures var a, b := rangeIndicator.markerA.timePosition, rangeIndicator.markerB.timePosition;
        !isFullMode && rangeIndicator.isIndicatorBVisible && a <= b && (currentLeft >= 0.0 || g.startOffset <= b + SegmentWidth / 2)
        ==> timeIndicator.timePosition <= b
      ensures !isFullMode && !rangeIndicator.isIndicatorAVisible && !rangeIndicator.isIndicatorBVisible
        ==> timeIndicator.timePosition == SettledTimePosition(CurrentView(), x)
      ensures notified ==> events == old(events) + PositionChangedEvents(PlayheadMillisecond(), TimeItems())
      ensures !notified ==> events == old(events)
    {
      TouchTargetWithinRange(x);
      var target := TouchTarget(x);
      notified := UpdatePlayhead(target);
    }

    /**
     * `processTimeItemClick`'s callback: a click on the item at the index when
     * the touch hits it and the index was the latest touched one, else nothing.
     */
    function ClickEvents(timeIndex: int, x: int, y: int, latest: int): (es: seq<Event>)
      requires timeIndex >= -1
      reads this`items, items`rectLeft, items`rectTop, items`rectRight, items`rectBottom
      ensures |es| <= 1
      ensures |es| == 1 <==> IsClick(timeIndex, |items|, 0 <= timeIndex < |items| && items[timeIndex].IsTouched(x, y), latest)
      ensures |es| == 1 ==> 0 <= timeIndex < |items| && es[0] == Clicked(timeIndex, items[timeIndex].timeItem)
    {
      if timeIndex != -1 && timeIndex < |items| && items[timeIndex].IsTouched(x, y) && latest == timeIndex
      then [Clicked(timeIndex, items[timeIndex].timeItem)]
      else []
    }

    /** `processTimeItemClick`: report the click, if the touch is one. */
    method ProcessTimeItemClick(timeIndex: int, x: int, y: int)
      requires timeIndex >= -1
      modifies this`events
      ensures events == old(events) + ClickEvents(timeIndex, x, y, latestTimeIndex)
    {
      if timeIndex != -1 && timeIndex < |items| {
        var circleIndicator := items[timeIndex];
        if circleIndicator.IsTouched(x, y) && latestTimeIndex == timeIndex {
          Emit([Clicked(timeIndex, circleIndicator.timeItem)]);
        }
      }
    }

    /**
     * The part a tap and a playhead release share: settle the playhead at the
     * touch (within the range), then look up the item under it.
     */
    method SettleAndLocate(x: real) returns (notified: bool, timeIndex: int)
      requires Valid() && OnRuler(x)
      modifies this`events, timeIndicator
      ensures Valid() && unchanged(timeIndicator`isVisible, timeIndicator`isDragging)
      ensures -1 <= timeIndex < |items|
      ensures Hole() == -1 ==>
        timeIndex == SlotIndex(CurrentTimePosition(g, isFullMode, timeIndicator.timePosition, timeIndicator.timePositionInFullMode), |items|)
      ensures notified ==> events == old(events) + PositionChangedEvents(PlayheadMillisecond(), TimeItems())
      ensures !notified ==> events == old(events)
    {
      notified := UpdateTimeIndicatorPosition(x);
      timeIndex := GetCurrentTimeIndex();
    }

    /**
     * A tap (a touch released within 6 px of where it went down, without
     * scrolling), ignored while playing or adding or deleting: the playhead
     * settles at the tap, the item under it is clicked when the tap hits it
     * and the previous touch was on the same item, and its index becomes the
     * latest touched one.
     */
    method Tap(x: real, y: real) returns (ghost notified: bool)
      requires Valid() && OnRuler(x)
      modifies this`events, this`latestTimeIndex, timeIndicator
      ensures Valid() && unchanged(timeIndicator`isVisible, timeIndicator`isDragging)
      ensures isPlaying || isOperating ==>
        events == old(events) && latestTimeIndex == old(latestTimeIndex) && unchanged(timeIndicator)
      ensures !isPlaying && !isOperating ==>
        latestTimeIndex == SlotIndex(CurrentTimePosition(g, isFullMode, timeIndicator.timePosition, timeIndicator.timePositionInFullMode), |items|)
      ensures !isPlaying && !isOperating ==>
        events == old(events) + (if notified then PositionChangedEvents(PlayheadMillisecond(), TimeItems()) else [])
                  + ClickEvents(latestTimeIndex, TruncToInt(x), TruncToInt(y), old(latestTimeIndex))
    {
      notified := false;
      if isPlaying || isOperating {
        return;
      }
      notified := TapWhenIdle(x, y);
    }

    /** A tap while neither playing nor adding or deleting. */
    method TapWhenIdle(x: real, y: real) returns (ghost notified: bool)
      requires Valid() && OnRuler(x) && Hole() == -1
      modifies this`events, this`latestTimeIndex, timeIndicator
      ensures Valid() && unchanged(timeIndicator`isVisible, timeIndicator`isDragging)
      ensures latestTimeIndex == SlotIndex(CurrentTimePosition(g, isFullMode, timeIndicator.timePosition, timeIndicator.timePositionInFullMode), |items|)
      ensures events == old(events) + (if notified then PositionChangedEvents(PlayheadMillisecond(), TimeItems()) else [])
                        + ClickEvents(latestTimeIndex, TruncToInt(x), TruncToInt(y), old(latestTimeIndex))
    {
      var timeIndex;
      notified, timeIndex := SettleAndLocate(x);
      ProcessTimeItemClick(timeIndex, TruncToInt(x), TruncToInt(y));
      latestTimeIndex := timeIndex;
    }

    /**
     * Releasing the dragged playhead: it settles where it was let go (within
     * the range) and the item under it becomes the latest touched one.
     */
    method ReleasePlayhead(x: real) returns (notified: bool)
      requires Valid() && OnRuler(x)
      modifies this`events, this`latestTimeIndex, timeIndicator
      ensures Valid() && unchanged(timeIndicator`isVisible)
      ensures isPlaying || isOperating ==> latestTimeIndex == old(latestTimeIndex) && unchanged(timeIndicator) && !notified
      ensures !isPlaying && !isOperating ==> !timeIndicator.isDragging
      ensures !isPlaying && !isOperating ==>
        latestTimeIndex == SlotIndex(CurrentTimePosition(g, isFullMode, timeIndicator.timePosition, timeIndicator.timePositionInFullMode), |items|)
      ensures notified ==> events == old(events) + PositionChangedEvents(PlayheadMillisecond(), TimeItems())
      ensures !notified ==> events == old(events)
    {
      notified := false;
      if isPlaying || isOperating {
        return;
      }
      timeIndicator.isDragging := false;
      notified, latestTimeIndex := SettleAndLocate(x);
    }

    /**
     * `moveTimeIndicatorToCenter`, run after an append: the playhead steps on
     * to the next tick.  At or past the middle of the view the ruler first
     * scrolls so that the next tick comes to the middle, and the playhead on
     * the ruler's last tick stays there; before the middle the playhead moves
     * one segment right of where it was last drawn.
     */
    method MoveTimeIndicatorToCenter()
      requires Valid() && !isFullMode
      modifies this`currentLeft, this`currentLeftIndex, this`events, timeIndicator
      ensures Valid() && unchanged(timeIndicator`isVisible, timeIndicator`isDragging)
      ensures var tp := old(timeIndicator.timePosition);
        currentLeft == (if tp >= g.Center() then ClampCurrentLeft(g, (tp + SegmentWidth - g.Center()) as real) else old(currentLeft))
      ensures var t := old(timeIndicator.timePosition) + SegmentWidth;
        t <= SegmentMaxWidth && (currentLeft >= 0.0 || g.startOffset <= t) ==> timeIndicator.timePosition == t
      ensures old(timeIndicator.timePosition) >= g.Center() && old(timeIndicator.timePosition) == SegmentMaxWidth
        ==> unchanged(timeIndicator) && events == old(events)
      ensures events == old(events) || events == old(events) + PositionChangedEvents(PlayheadMillisecond(), TimeItems())
    {
      var position := g.Center();
      if timeIndicator.timePosition >= position {
        ScrollPastCenter(position);
      } else {
        var drawn := TruncToInt(timeIndicator.timePosition as real - currentLeft);
        NextTickFromDrawnSettles(CurrentView(), timeIndicator.timePosition);
        var _ := UpdatePlayhead((drawn + SegmentWidth) as real);
      }
    }

    /**
     * The scrolling branch of `moveTimeIndicatorToCenter`, with both
     * animations run to their end: the scroll first, then the playhead's step.
     */
    method ScrollPastCenter(position: int)
      requires Valid() && !isFullMode && position == g.Center() && timeIndicator.timePosition >= position
      modifies this`currentLeft, this`currentLeftIndex, this`events, timeIndicator
      ensures Valid() && unchanged(timeIndicator`isVisible, timeIndicator`isDragging)
      ensures currentLeft == ClampCurrentLeft(g, (old(timeIndicator.timePosition) + SegmentWidth - position) as real)
      ensures var t := old(timeIndicator.timePosition) + SegmentWidth;
        t <= SegmentMaxWidth && (currentLeft >= 0.0 || g.startOffset <= t) ==> timeIndicator.timePosition == t
      ensures old(timeIndicator.timePosition) == SegmentMaxWidth ==> unchanged(timeIndicator) && events == old(events)
      ensures events == old(events) || events == old(events) + PositionChangedEvents(PlayheadMillisecond(), TimeItems())
    {
      ScrollTo((timeIndicator.timePosition + SegmentWidth - position) as real);
      StepUnlessAtEnd();
    }

    /** The playhead steps to the next tick unless it is on the last tick of the ruler. */
    method StepUnlessAtEnd()
      requires Valid() && !isFullMode
      modifies this`events, timeIndicator
      ensures Valid() && unchanged(timeIndicator`isVisible, timeIndicator`isDragging)
      ensures var t := old(timeIndicator.timePosition) + SegmentWidth;
        t <= SegmentMaxWidth && (currentLeft >= 0.0 || g.startOffset <= t) ==> timeIndicator.timePosition == t
      ensures old(timeIndicator.timePosition) == SegmentMaxWidth ==> unchanged(timeIndicator) && events == old(events)
      ensures events == old(events) || events == old(events) + PositionChangedEvents(PlayheadMillisecond(), TimeItems())
    {
      var t := timeIndicator.timePosition;
      assert TickIndex(t) == TotalSegmentCount <==> t == SegmentMaxWidth;
      if TickIndex(t) != TotalSegmentCount {
        StepPlayheadTo(t + SegmentWidth);
      }
    }

    /** The scroll animation has ended at `left`, clamped by `computeTime`. */
    method ScrollTo(left: real)
      modifies this`currentLeft, this`currentLeftIndex
      ensures currentLeft == ClampCurrentLeft(g, left)
    {
      currentLeft := left;
      ComputeTime();
    }

    /**
     * The end of the playhead's step animation: it is set on tick t and then
     * settles at t's screen position, which is t itself under the start-offset
     * proviso.
     */
    method StepPlayheadTo(t: int)
      requires Valid() && !isFullMode && t >= 0 && OnTick(t)
      modifies this`events, timeIndicator
      ensures Valid() && unchanged(timeIndicator`isVisible, timeIndicator`isDragging)
      ensures t <= SegmentMaxWidth && (currentLeft >= 0.0 || g.startOffset <= t) ==> timeIndicator.timePosition == t
      ensures events == old(events) || events == old(events) + PositionChangedEvents(PlayheadMillisecond(), TimeItems())
    {
      timeIndicator.timePosition := t;
      TickScreenSettlesWhenOnRuler(t);
      var _ := UpdatePlayhead(t as real - currentLeft);
    }

    /**
     * `addTimeItem`'s append branch: the ticks from the end of the list up to
     * tick k - 1 get empty items, then the new item is appended.
     */
    method AppendPadded(c: CircleIndicator, k: int)
      requires ItemsValid() && operation.Idle? && |items| <= k
      requires c !in items && c.timePosition == k * SegmentWidth
      modifies this`items
      ensures ItemsValid()
      ensures |items| == k + 1 && items[..old(|items|)] == old(items) && items[k] == c
      ensures forall i | old(|items|) <= i < k :: fresh(items[i]) && items[i].timeItem == EmptyItem()
    {
      var pads := MakePads(|items|, k, timeIndicator.timePosition, circleRadius, circleTop, items + [c]);
      DistinctConcat(items, pads);
      DistinctConcat(items + pads, [c]);
      ghost var n := |items|;
      items := items + pads + [c];
      assert forall i | n <= i < k :: items[i] == pads[i - n];
    }

    /**
     * `addTimeItem`'s shift: every item from index `from` on moves one tick
     * later, animated when near the screen, directly otherwise.
     */
    method ShiftItemsRight(from: int)
      requires 0 <= from <= |items| && Distinct(items)
      modifies items`timePosition, items`isMoving, items`isSelected
      ensures forall i | 0 <= i < |items| ::
        items[i].timePosition == old(items[i].timePosition) + (if i >= from then SegmentWidth else 0)
    {
      var j := from;
      while j < |items|
        invariant from <= j <= |items|
        invariant forall i | 0 <= i < |items| ::
          items[i].timePosition == old(items[i].timePosition) + (if from <= i < j then SegmentWidth else 0)
      {
        var c := items[j];
        var indicatorPos := c.timePosition as real - currentLeft;
        if -(SegmentWidth as real) < indicatorPos < (g.screenWidth + SegmentWidth) as real {
          c.MoveToNext(true);
        } else {
          c.timePosition := c.timePosition + SegmentWidth;
        }
        j := j + 1;
      }
    }

    /**
     * `addTimeItem`'s insert branch: the items from k on move one tick later
     * and the new item takes index k.
     */
    method InsertShifted(c: CircleIndicator, k: int)
      requires ItemsValid() && operation.Idle? && 0 <= k < |items|
      requires c !in items && c.timePosition == k * SegmentWidth
      modifies this`items, items`timePosition, items`isMoving, items`isSelected
      ensures ItemsValid()
      ensures items == old(items[..k]) + [c] + old(items[k..])
    {
      DistinctInsert(items, k, c);
      ShiftItemsRight(k);
      items := items[..k] + [c] + items[k..];
    }

    /**
     * `addTimeItem(flag, color, data)`: ignored while playing, in full mode,
     * when every tick holds an item, or while another add or delete runs.
     * Otherwise a new item is made at the playhead's tick k: past the end of
     * the list the gap is padded with empty items, the item appended and the
     * playhead stepped on; within the list the item is inserted at k, the
     * items from k on move one tick later, and a range around the playhead
     * grows by a tick.  The item then fades in.
     */
    method AddTimeItem(flag: int, color: int, data: Option<Payload>)
      requires Valid()
      modifies this`items, this`isOperating, this`operation, this`currentLeft, this`currentLeftIndex, this`events
      modifies items`timePosition, items`isMoving, items`isSelected, timeIndicator
      modifies rangeIndicator.markerB`timePosition, rangeIndicator.markerB`currentPosition, rangeIndicator.markerB`oldTimePosition, rangeIndicator.markerB`timePositionInFullMode, rangeIndicator.markerB`currentPositionInFullMode, rangeIndicator.markerB`oldMillisecond, rangeIndicator.markerB`rectLeft, rangeIndicator.markerB`rectTop, rangeIndicator.markerB`rectRight, rangeIndicator.markerB`rectBottom
      ensures Valid()
      ensures old(isPlaying || isFullMode || |items| == TotalSegmentCount + 1 || isOperating) ==>
        items == old(items) && operation == old(operation) && events == old(events)
      ensures !old(isPlaying || isFullMode || |items| == TotalSegmentCount + 1 || isOperating) ==>
        var k := old(PlayheadIndex());
        && operation.Showing? && operation.shown.timeItem == TimeItem(flag, color, data)
        && TimeItems() == AddedItems(old(TimeItems()), k, TimeItem(flag, color, data))
    {
      if isPlaying || isFullMode {
        return;
      }
      if |items| == TotalSegmentCount + 1 {
        return;
      }
      if isOperating {
        return;
      }
      var timePosition := timeIndicator.timePosition;
      var timeSegmentIndex := KDiv(timePosition, SegmentWidth);
      var c := new CircleIndicator(TimeItem(flag, color, data), timePosition, timeIndicator.timePosition, circleRadius, circleTop);
      if |items| - 1 < timeSegmentIndex {
        AddAppended(c, timeSegmentIndex);
      } else {
        AddInserted(c, timeSegmentIndex);
      }
    }

    /** `addTimeItem` past the end of the list: pad, append, fade in, step the playhead on. */
    method AddAppended(c: CircleIndicator, k: int)
      requires Valid() && !isFullMode && !isOperating && |items| <= k
      requires c !in items && c.timePosition == timeIndicator.timePosition && k == PlayheadIndex()
      modifies this`items, this`isOperating, this`operation, c`isShowing, c`currentPosition, c`rectLeft, c`rectTop, c`rectRight, c`rectBottom
      modifies this`currentLeft, this`currentLeftIndex, this`events, timeIndicator
      ensures Valid() && operation == Showing(c)
      ensures TimeItems() == AddedItems(old(TimeItems()), k, c.timeItem)
      ensures var t := (k + 1) * SegmentWidth;
        t <= SegmentMaxWidth && (currentLeft >= 0.0 || g.startOffset <= t) ==> timeIndicator.timePosition == t
    {
      AppendAndShow(c, k);
      MoveTimeIndicatorToCenter();
    }

    /** The list part of the append: pad, append, start the fade-in. */
    method AppendAndShow(c: CircleIndicator, k: int)
      requires Valid() && !isFullMode && !isOperating && |items| <= k
      requires c !in items && c.timePosition == k * SegmentWidth
      modifies this`items, this`isOperating, this`operation, c`isShowing, c`currentPosition, c`rectLeft, c`rectTop, c`rectRight, c`rectBottom
      ensures Valid() && operation == Showing(c)
      ensures TimeItems() == AddedItems(old(TimeItems()), k, c.timeItem)
    {
      ghost var cs := items;
      AppendPadded(c, k);
      TimeItemsOfAppend(cs, items, k);
      StartShowing(c);
    }

    /** `addTimeItem` within the list: shift, insert, fade in, grow the range. */
    method AddInserted(c: CircleIndicator, k: int)
      requires Valid() && !isFullMode && !isOperating && 0 <= k < |items|
      requires c !in items && c.timePosition == timeIndicator.timePosition && k == PlayheadIndex()
      modifies this`items, this`isOperating, this`operation, items`timePosition, items`isMoving, items`isSelected, c`isShowing, c`currentPosition, c`rectLeft, c`rectTop, c`rectRight, c`rectBottom
      modifies this`events, timeIndicator, rangeIndicator.markerB`timePosition, rangeIndicator.markerB`currentPosition, rangeIndicator.markerB`oldTimePosition, rangeIndicator.markerB`timePositionInFullMode, rangeIndicator.markerB`currentPositionInFullMode, rangeIndicator.markerB`oldMillisecond, rangeIndicator.markerB`rectLeft, rangeIndicator.markerB`rectTop, rangeIndicator.markerB`rectRight, rangeIndicator.markerB`rectBottom
      ensures Valid() && operation == Showing(c)
      ensures TimeItems() == AddedItems(old(TimeItems()), k, c.timeItem)
      ensures var a, b := rangeIndicator.markerA.timePosition, old(rangeIndicator.markerB.timePosition);
        rangeIndicator.isIndicatorBVisible && a <= k * SegmentWidth <= b
        && b + SegmentWidth <= LastItemPosition(|items|) <= SegmentMaxWidth
        && (currentLeft >= 0.0 || g.startOffset <= b + SegmentWidth)
        ==> rangeIndicator.markerB.timePosition == b + SegmentWidth
    {
      var timePosition := c.timePosition;
      InsertAndShow(c, k);
      CheckRangeIndicatorWhenAdd(timePosition);
    }

    /** The list part of the insert: shift, insert, start the fade-in. */
    method InsertAndShow(c: CircleIndicator, k: int)
      requires Valid() && !isFullMode && !isOperating && 0 <= k < |items|
      requires c !in items && c.timePosition == k * SegmentWidth
      modifies this`items, this`isOperating, this`operation, items`timePosition, items`isMoving, items`isSelected, c`isShowing, c`currentPosition, c`rectLeft, c`rectTop, c`rectRight, c`rectBottom
      ensures Valid() && operation == Showing(c) && c.timePosition == k * SegmentWidth
      ensures TimeItems() == AddedItems(old(TimeItems()), k, c.timeItem)
    {
      ghost var cs := items;
      InsertShifted(c, k);
      TimeItemsOfInsert(cs, k, c);
      StartShowing(c);
    }

    /** The fade-in of c starts (`show`); the add is under way (`isOperating`) until it ends. */
    method StartShowing(c: CircleIndicator)
      requires Valid() && !isFullMode && !isOperating && c in items
      modifies this`isOperating, this`operation, c`isShowing, c`currentPosition, c`rectLeft, c`rectTop, c`rectRight, c`rectBottom
      ensures Valid() && isOperating && operation == Showing(c)
      ensures c.isShowing && c.currentPosition == TruncToInt(c.timePosition as real - currentLeft)
    {
      isOperating, operation := true, Showing(c);
      c.Show(currentLeft);
    }

    /**
     * `checkRangeIndicatorWhenAdd(timePosition)`: with B set and the new item
     * from A to B, B moves one segment later, which lands it on the next tick
     * when that is not past the last item.
     */
    method CheckRangeIndicatorWhenAdd(timePosition: int)
      requires Valid() && !isFullMode && |items| > 0
      modifies this`events, timeIndicator, rangeIndicator.markerB`timePosition, rangeIndicator.markerB`currentPosition, rangeIndicator.markerB`oldTimePosition, rangeIndicator.markerB`timePositionInFullMode, rangeIndicator.markerB`currentPositionInFullMode, rangeIndicator.markerB`oldMillisecond, rangeIndicator.markerB`rectLeft, rangeIndicator.markerB`rectTop, rangeIndicator.markerB`rectRight, rangeIndicator.markerB`rectBottom
      ensures Valid()
      ensures var a, b := rangeIndicator.markerA.timePosition, old(rangeIndicator.markerB.timePosition);
        !(rangeIndicator.isIndicatorBVisible && a <= timePosition <= b)
        ==> unchanged(rangeIndicator.markerB) && unchanged(timeIndicator) && events == old(events)
      ensures var a, b := rangeIndicator.markerA.timePosition, old(rangeIndicator.markerB.timePosition);
        rangeIndicator.isIndicatorBVisible && a <= timePosition <= b
        && b + SegmentWidth <= LastItemPosition(|items|) <= SegmentMaxWidth
        && (currentLeft >= 0.0 || g.startOffset <= b + SegmentWidth)
        ==> rangeIndicator.markerB.timePosition == b + SegmentWidth
    {
      var a, b := rangeIndicator.markerA, rangeIndicator.markerB;
      if rangeIndicator.isIndicatorBVisible && a.timePosition <= timePosition <= b.timePosition {
        NeighbourTicks(b.timePosition);
        MoveRangeBToTick(b.timePosition + SegmentWidth);
      }
    }

    /**
     * `rangeIndicator.updateIndicatorAPosition` for the screen position of a
     * tick t, followed by the range's listener when A settled somewhere new.
     * Without B, A lands on t when t is not past the last item.
     */
    method MoveRangeAToTick(t: int)
      requires Valid() && !isFullMode && |items| > 0 && t >= 0
      modifies this`events, timeIndicator, rangeIndicator.markerA`timePosition, rangeIndicator.markerA`currentPosition, rangeIndicator.markerA`oldTimePosition, rangeIndicator.markerA`timePositionInFullMode, rangeIndicator.markerA`currentPositionInFullMode, rangeIndicator.markerA`oldMillisecond, rangeIndicator.markerA`rectLeft, rangeIndicator.markerA`rectTop, rangeIndicator.markerA`rectRight, rangeIndicator.markerA`rectBottom
      ensures Valid() && unchanged(rangeIndicator.markerB)
      ensures !rangeIndicator.isIndicatorBVisible && OnTick(t) && t <= LastItemPosition(|items|) <= SegmentMaxWidth
        && (currentLeft >= 0.0 || g.startOffset <= t)
        ==> rangeIndicator.markerA.timePosition == t
      ensures events == old(events) || events == old(events) + PositionChangedEvents(PlayheadMillisecond(), TimeItems())
    {
      var notified := SettleRangeA(t);
      if notified {
        OnRangeChanged();
      }
    }

    /** Marker A settles for the screen position of tick t; returns whether its listener is due. */
    method SettleRangeA(t: int) returns (notified: bool)
      requires Valid() && !isFullMode && |items| > 0 && t >= 0
      modifies rangeIndicator.markerA`timePosition, rangeIndicator.markerA`currentPosition, rangeIndicator.markerA`oldTimePosition, rangeIndicator.markerA`timePositionInFullMode, rangeIndicator.markerA`currentPositionInFullMode, rangeIndicator.markerA`oldMillisecond, rangeIndicator.markerA`rectLeft, rangeIndicator.markerA`rectTop, rangeIndicator.markerA`rectRight, rangeIndicator.markerA`rectBottom
      ensures Valid()
      ensures !rangeIndicator.isIndicatorBVisible && OnTick(t) && t <= LastItemPosition(|items|) <= SegmentMaxWidth
        && (currentLeft >= 0.0 || g.startOffset <= t)
        ==> rangeIndicator.markerA.timePosition == t
    {
      TickScreenSettlesWhenOnRuler(t);
      notified := rangeIndicator.UpdateIndicatorAPosition(CurrentView(), t as real - currentLeft, |items|, items[|items| - 1].timePosition);
    }

    /**
     * `rangeIndicator.updateIndicatorBPosition` for the screen position of a
     * tick t, followed by the range's listener when B settled somewhere new.
     * B lands on t when t lies from A to the last item.
     */
    method MoveRangeBToTick(t: int)
      requires Valid() && !isFullMode && |items| > 0
      modifies this`events, timeIndicator, rangeIndicator.markerB`timePosition, rangeIndicator.markerB`currentPosition, rangeIndicator.markerB`oldTimePosition, rangeIndicator.markerB`timePositionInFullMode, rangeIndicator.markerB`currentPositionInFullMode, rangeIndicator.markerB`oldMillisecond, rangeIndicator.markerB`rectLeft, rangeIndicator.markerB`rectTop, rangeIndicator.markerB`rectRight, rangeIndicator.markerB`rectBottom
      ensures Valid() && unchanged(rangeIndicator.markerA)
      ensures OnTick(t) && rangeIndicator.markerA.timePosition <= t <= LastItemPosition(|items|) <= SegmentMaxWidth
        && (currentLeft >= 0.0 || g.startOffset <= t)
        ==> rangeIndicator.markerB.timePosition == t
      ensures events == old(events) || events == old(events) + PositionChangedEvents(PlayheadMillisecond(), TimeItems())
    {
      var notified := SettleRangeB(t);
      if notified {
        OnRangeChanged();
      }
    }

    /** Marker B settles for the screen position of tick t; returns whether its listener is due. */
    method SettleRangeB(t: int) returns (notified: bool)
      requires Valid() && !isFullMode && |items| > 0
      modifies rangeIndicator.markerB`timePosition, rangeIndicator.markerB`currentPosition, rangeIndicator.markerB`oldTimePosition, rangeIndicator.markerB`timePositionInFullMode, rangeIndicator.markerB`currentPositionInFullMode, rangeIndicator.markerB`oldMillisecond, rangeIndicator.markerB`rectLeft, rangeIndicator.markerB`rectTop, rangeIndicator.markerB`rectRight, rangeIndicator.markerB`rectBottom
      ensures Valid()
      ensures OnTick(t) && rangeIndicator.markerA.timePosition <= t <= LastItemPosition(|items|) <= SegmentMaxWidth
        && (currentLeft >= 0.0 || g.startOffset <= t)
        ==> rangeIndicator.markerB.timePosition == t
    {
      TickScreenSettlesWhenOnRuler(t);
      notified := rangeIndicator.UpdateIndicatorBPosition(CurrentView(), t as real - currentLeft, |items|, items[|items| - 1].timePosition);
    }

    /** The end of the fade-in (`onFinishShow`): the add is over and the listener hears of it and of the new size. */
    method FinishShow()
      requires Valid() && operation.Showing?
      modifies this`isOperating, this`operation, this`events, operation.shown`isShowing, operation.shown`currentPosition, operation.shown`rectLeft, operation.shown`rectTop, operation.shown`rectRight, operation.shown`rectBottom, operation.shown`isSelected
      ensures Valid() && !isOperating && operation.Idle?
      ensures events == old(events) + [Added, SizeChanged(|items|)]
      ensures var c := old(operation.shown);
        !c.isShowing && (c.isSelected <==> c.timePosition == timeIndicator.timePosition)
    {
      var c := operation.shown;
      c.FinishShow(currentLeft, timeIndicator.timePosition);
      isOperating := false;
      operation := Idle;
      Emit([Added, SizeChanged(|items|)]);
    }

    /**
     * `delete()`: ignored while playing, in full mode, when no item is on the
     * playhead's tick k, or while another add or delete runs.  Otherwise the
     * range is adjusted for item k, the items after it move one tick earlier,
     * and item k starts to fade out; it leaves the list when the fade-out ends
     * (`FinishDelete`).
     */
    method Delete()
      requires Valid()
      modifies this`isOperating, this`operation, this`events, items`timePosition, items`isMoving, items`isDeleting
      modifies timeIndicator, rangeIndicator`isIndicatorAVisible, rangeIndicator`isIndicatorBVisible, rangeIndicator.markerA`timePosition, rangeIndicator.markerA`currentPosition, rangeIndicator.markerA`oldTimePosition, rangeIndicator.markerA`timePositionInFullMode, rangeIndicator.markerA`currentPositionInFullMode, rangeIndicator.markerA`oldMillisecond, rangeIndicator.markerA`rectLeft, rangeIndicator.markerA`rectTop, rangeIndicator.markerA`rectRight, rangeIndicator.markerA`rectBottom, rangeIndicator.markerB`timePosition, rangeIndicator.markerB`currentPosition, rangeIndicator.markerB`oldTimePosition, rangeIndicator.markerB`timePositionInFullMode, rangeIndicator.markerB`currentPositionInFullMode, rangeIndicator.markerB`oldMillisecond, rangeIndicator.markerB`rectLeft, rangeIndicator.markerB`rectTop, rangeIndicator.markerB`rectRight, rangeIndicator.markerB`rectBottom
      ensures Valid()
      ensures var k := old(PlayheadIndex());
        old(isPlaying || isFullMode || k > |items| - 1 || isOperating) ==>
          operation == old(operation) && events == old(events) && unchanged(timeIndicator)
      ensures var k := old(PlayheadIndex());
        !old(isPlaying || isFullMode || k > |items| - 1 || isOperating) ==>
          operation == Deleting(old(items[k]), k) && items == old(items) && items[k].isDeleting
    {
      if isPlaying || isFullMode {
        return;
      }
      var index := KDiv(timeIndicator.timePosition, SegmentWidth);
      if index > |items| - 1 {
        return;
      }
      if isOperating {
        return;
      }
      DeleteAt(index);
    }

    /** `delete` past its guards: adjust the range for item k, then shift and start the fade-out. */
    method DeleteAt(k: int)
      requires Valid() && !isFullMode && !isOperating && 0 <= k < |items| && k == PlayheadIndex()
      modifies this`isOperating, this`operation, this`events, items`timePosition, items`isMoving, items`isDeleting
      modifies timeIndicator, rangeIndicator`isIndicatorAVisible, rangeIndicator`isIndicatorBVisible, rangeIndicator.markerA`timePosition, rangeIndicator.markerA`currentPosition, rangeIndicator.markerA`oldTimePosition, rangeIndicator.markerA`timePositionInFullMode, rangeIndicator.markerA`currentPositionInFullMode, rangeIndicator.markerA`oldMillisecond, rangeIndicator.markerA`rectLeft, rangeIndicator.markerA`rectTop, rangeIndicator.markerA`rectRight, rangeIndicator.markerA`rectBottom, rangeIndicator.markerB`timePosition, rangeIndicator.markerB`currentPosition, rangeIndicator.markerB`oldTimePosition, rangeIndicator.markerB`timePositionInFullMode, rangeIndicator.markerB`currentPositionInFullMode, rangeIndicator.markerB`oldMillisecond, rangeIndicator.markerB`rectLeft, rangeIndicator.markerB`rectTop, rangeIndicator.markerB`rectRight, rangeIndicator.markerB`rectBottom
      ensures Valid() && operation == Deleting(items[k], k) && items == old(items) && items[k].isDeleting
      ensures forall i | 0 <= i < |items| ::
        items[i].timePosition == old(items[i].timePosition) - (if i > k then SegmentWidth else 0)
    {
      CheckRangeIndicatorWithDelete(k);
      StartDeleting(k);
    }

    /** The items after k move one tick earlier and item k starts to fade out. */
    method StartDeleting(k: int)
      requires Valid() && !isFullMode && !isOperating && 0 <= k < |items|
      modifies this`isOperating, this`operation, items`timePosition, items`isMoving, items`isDeleting
      ensures Valid() && operation == Deleting(items[k], k) && items == old(items) && items[k].isDeleting
      ensures forall i | 0 <= i < |items| ::
        items[i].timePosition == old(items[i].timePosition) - (if i > k then SegmentWidth else 0)
    {
      isOperating, operation := true, Deleting(items[k], k);
      ShiftItemsLeft(k + 1);
      items[k].Delete();
    }

    /**
     * `delete`'s shift: every item from index `from` on moves one tick
     * earlier, animated when near the screen, directly otherwise.
     */
    method ShiftItemsLeft(from: int)
      requires 0 <= from <= |items| && Distinct(items)
      modifies items`timePosition, items`isMoving
      ensures forall i | 0 <= i < |items| ::
        items[i].timePosition == old(items[i].timePosition) - (if i >= from then SegmentWidth else 0)
    {
      var j := from;
      while j < |items|
        invariant from <= j <= |items|
        invariant forall i | 0 <= i < |items| ::
          items[i].timePosition == old(items[i].timePosition) - (if from <= i < j then SegmentWidth else 0)
      {
        var c := items[j];
        var indicatorPos := c.timePosition as real - currentLeft;
        if -(SegmentWidth as real) < indicatorPos < (g.screenWidth + SegmentWidth) as real {
          c.MoveToPrevious(true);
        } else {
          c.timePosition := c.timePosition - SegmentWidth;
        }
        j := j + 1;
      }
    }

    /** The change `checkRangeIndicatorWithDelete` makes for item k, from the positions of item k, the last item, A and B. */
    function RangeChangeOnDelete(k: int): RangeChange
      requires 0 <= k < |items|
      reads this`items, items`timePosition, rangeIndicator`isIndicatorAVisible, rangeIndicator`isIndicatorBVisible
      reads rangeIndicator.markerA`timePosition, rangeIndicator.markerB`timePosition
    {
      RangeOnDelete(rangeIndicator.isIndicatorAVisible, rangeIndicator.isIndicatorBVisible,
                    items[k].timePosition, items[|items| - 1].timePosition,
                    rangeIndicator.markerA.timePosition, rangeIndicator.markerB.timePosition)
    }

    /**
     * `checkRangeIndicatorWithDelete(items[k])`, for the item under the
     * playhead before it leaves the list: with only A set, deleting at tick 0
     * clears the range and deleting A's item when it is the last one moves A a
     * tick back; with B set, deleting at tick 0, or the item A and B share,
     * clears the range, and deleting an item from A to B moves B a tick back.
     */
    method CheckRangeIndicatorWithDelete(k: int)
      requires Valid() && !isFullMode && Hole() == -1 && 0 <= k < |items|
      requires items[k].timePosition == timeIndicator.timePosition
      modifies this`events, timeIndicator, rangeIndicator`isIndicatorAVisible, rangeIndicator`isIndicatorBVisible, rangeIndicator.markerA`timePosition, rangeIndicator.markerA`currentPosition, rangeIndicator.markerA`oldTimePosition, rangeIndicator.markerA`timePositionInFullMode, rangeIndicator.markerA`currentPositionInFullMode, rangeIndicator.markerA`oldMillisecond, rangeIndicator.markerA`rectLeft, rangeIndicator.markerA`rectTop, rangeIndicator.markerA`rectRight, rangeIndicator.markerA`rectBottom, rangeIndicator.markerB`timePosition, rangeIndicator.markerB`currentPosition, rangeIndicator.markerB`oldTimePosition, rangeIndicator.markerB`timePositionInFullMode, rangeIndicator.markerB`currentPositionInFullMode, rangeIndicator.markerB`oldMillisecond, rangeIndicator.markerB`rectLeft, rangeIndicator.markerB`rectTop, rangeIndicator.markerB`rectRight, rangeIndicator.markerB`rectBottom
      ensures Valid()
      ensures old(RangeChangeOnDelete(k)) == ClearRange ==>
        && !rangeIndicator.isIndicatorAVisible && !rangeIndicator.isIndicatorBVisible
        && rangeIndicator.markerA.timePosition == 0 && rangeIndicator.markerB.timePosition == 0
      ensures var a := old(rangeIndicator.markerA.timePosition);
        old(RangeChangeOnDelete(k)) == PullABack && LastItemPosition(|items|) <= SegmentMaxWidth
        && (currentLeft >= 0.0 || g.startOffset <= a - SegmentWidth)
        ==> rangeIndicator.markerA.timePosition == a - SegmentWidth
      ensures var b := old(rangeIndicator.markerB.timePosition);
        old(RangeChangeOnDelete(k)) == PullBBack && b - SegmentWidth <= LastItemPosition(|items|) <= SegmentMaxWidth
        && (currentLeft >= 0.0 || g.startOffset <= b - SegmentWidth)
        ==> rangeIndicator.markerB.timePosition == b - SegmentWidth
      ensures old(RangeChangeOnDelete(k)) == KeepRange ==>
        && unchanged(rangeIndicator`isIndicatorAVisible, rangeIndicator`isIndicatorBVisible)
        && unchanged(rangeIndicator.markerA, rangeIndicator.markerB, timeIndicator) && events == old(events)
    {
      PullBBackLeavesRange(k);
      var change := RangeChangeOnDelete(k);
      if change == ClearRange {
        rangeIndicator.Reset();
      } else if change == PullABack {
        PullABackOnDelete(k);
      } else if change == PullBBack {
        PullBBackOnDelete();
      }
    }

    /** A was on the deleted last item: it moves to the tick before the playhead. */
    method PullABackOnDelete(k: int)
      requires Valid() && !isFullMode && Hole() == -1 && 0 <= k < |items|
      requires items[k].timePosition == timeIndicator.timePosition && RangeChangeOnDelete(k) == PullABack
      modifies this`events, timeIndicator, rangeIndicator.markerA`timePosition, rangeIndicator.markerA`currentPosition, rangeIndicator.markerA`oldTimePosition, rangeIndicator.markerA`timePositionInFullMode, rangeIndicator.markerA`currentPositionInFullMode, rangeIndicator.markerA`oldMillisecond, rangeIndicator.markerA`rectLeft, rangeIndicator.markerA`rectTop, rangeIndicator.markerA`rectRight, rangeIndicator.markerA`rectBottom
      ensures Valid() && unchanged(rangeIndicator`isIndicatorAVisible, rangeIndicator`isIndicatorBVisible)
      ensures var a := old(rangeIndicator.markerA.timePosition);
        LastItemPosition(|items|) <= SegmentMaxWidth && (currentLeft >= 0.0 || g.startOffset <= a - SegmentWidth)
        ==> rangeIndicator.markerA.timePosition == a - SegmentWidth
    {
      assert k == |items| - 1;
      MoveRangeAToTick(timeIndicator.timePosition - SegmentWidth);
    }

    /** B moves a tick back, for a deleted item from A to B; B stays at or after A. */
    method PullBBackOnDelete()
      requires Valid() && !isFullMode && |items| > 0
      requires rangeIndicator.markerA.timePosition + SegmentWidth <= rangeIndicator.markerB.timePosition
      modifies this`events, timeIndicator, rangeIndicator.markerB`timePosition, rangeIndicator.markerB`currentPosition, rangeIndicator.markerB`oldTimePosition, rangeIndicator.markerB`timePositionInFullMode, rangeIndicator.markerB`currentPositionInFullMode, rangeIndicator.markerB`oldMillisecond, rangeIndicator.markerB`rectLeft, rangeIndicator.markerB`rectTop, rangeIndicator.markerB`rectRight, rangeIndicator.markerB`rectBottom
      ensures Valid() && unchanged(rangeIndicator`isIndicatorAVisible, rangeIndicator`isIndicatorBVisible)
      ensures var b := old(rangeIndicator.markerB.timePosition);
        b - SegmentWidth <= LastItemPosition(|items|) <= SegmentMaxWidth && (currentLeft >= 0.0 || g.startOffset <= b - SegmentWidth)
        ==> rangeIndicator.markerB.timePosition == b - SegmentWidth
    {
      NeighbourTicks(rangeIndicator.markerB.timePosition);
      MoveRangeBToTick(rangeIndicator.markerB.timePosition - SegmentWidth);
    }

    /** A delete that pulls B back leaves at least a tick from A to B. */
    lemma PullBBackLeavesRange(k: int)
      requires Valid() && 0 <= k < |items|
      ensures RangeChangeOnDelete(k) == PullBBack ==>
        rangeIndicator.markerA.timePosition + SegmentWidth <= rangeIndicator.markerB.timePosition
    {
      var a, b := rangeIndicator.markerA.timePosition, rangeIndicator.markerB.timePosition;
      if RangeChangeOnDelete(k) == PullBBack {
        assert a < b;
        TicksApart(a, b);
      }
    }

    /**
     * The end of the fade-out (`onDeleted`): the item leaves the list, the
     * delete is over, and the listener hears of the delete, of the item now
     * at that index (or of no selection) and of the new size.
     */
    method FinishDelete()
      requires Valid() && operation.Deleting?
      modifies this`items, this`isOperating, this`operation, this`events, operation.removed`isDeleting
      ensures Valid() && !isOperating && operation.Idle?
      ensures var k := old(operation.index);
        && items == old(items[..k] + items[k + 1..])
        && TimeItems() == DeletedItems(old(TimeItems()), k)
        && events == old(events) + [Deleted, SelectionAfterDelete(TimeItems(), k), SizeChanged(|items|)]
        && !old(operation.removed).isDeleting
    {
      var k := operation.index;
      DropDeleted();
      var selected := if 0 < |items| && k < |items| then SelectedStateChanged(true, Some(items[k].timeItem))
                      else SelectedStateChanged(false, None);
      Emit([Deleted, selected, SizeChanged(|items|)]);
    }

    /** The removed item stops fading out and leaves the list; the delete is over. */
    method DropDeleted()
      requires Valid() && operation.Deleting?
      modifies this`items, this`isOperating, this`operation, operation.removed`isDeleting
      ensures Valid() && !isOperating && operation.Idle?
      ensures var k := old(operation.index);
        && 0 <= k && items == old(items[..k] + items[k + 1..])
        && TimeItems() == DeletedItems(old(TimeItems()), k)
        && !old(operation.removed).isDeleting
    {
      var c, k := operation.removed, operation.index;
      c.FinishDelete();
      RemoveItem(k);
    }

    /** The item that fades out leaves the list (`timeItemList.remove`), closing the hole. */
    method RemoveItem(k: int)
      requires ItemsValid() && operation.Deleting? && k == operation.index
      modifies this`items, this`operation, this`isOperating
      ensures ItemsValid() && operation.Idle? && !isOperating
      ensures items == old(items[..k] + items[k + 1..])
      ensures TimeItems() == DeletedItems(old(TimeItems()), k)
    {
      DistinctRemove(items, k);
      TimeItemsOfRemove(items, k);
      ghost var cs := items;
      items, operation, isOperating := items[..k] + items[k + 1..], Idle, false;
      assert forall i | 0 <= i < |items| :: items[i] == cs[if i < k then i else i + 1];
    }

    /**
     * `reset`, ignored while the player runs: the list is emptied, the ruler
     * scrolls back to its beginning, the playhead is settled at screen
     * position 0 and then put on position 0, and a shown range is cleared.
     * While the beginning is shown a touch never settles before the start
     * offset, so in normal mode the listener reports the tick nearest the
     * start offset, not tick 0; in full mode it reports time 0.
     */
    method Reset()
      requires Valid()
      modifies this`items, this`isOperating, this`operation, this`currentLeft, this`currentLeftIndex, this`events
      modifies timeIndicator, rangeIndicator`isIndicatorAVisible, rangeIndicator`isIndicatorBVisible
      modifies rangeIndicator.markerA`timePosition, rangeIndicator.markerB`timePosition
      ensures Valid()
      ensures old(isPlaying) ==>
        unchanged(this) && unchanged(timeIndicator, rangeIndicator, rangeIndicator.markerA, rangeIndicator.markerB)
      ensures !old(isPlaying) ==>
        && items == [] && !isOperating && timeIndicator.timePosition == 0
        && !rangeIndicator.isIndicatorAVisible && !rangeIndicator.isIndicatorBVisible
        && currentLeft == ClampCurrentLeft(g, -(g.startOffset as real))
      ensures !old(isPlaying) ==>
        events == old(events) || events == old(events) + PositionChangedEvents(ResetMillisecond(), [])
    {
      if isPlaying {
        return;
      }
      ClearItems();
      ResetPlayhead();
      ClearRangeAndScroll();
    }

    /**
     * The time the playhead's listener reports when `reset` settles it at
     * screen position 0 with the ruler scrolled to its beginning.
     */
    function ResetMillisecond(): (ms: int)
      requires g.Valid()
      reads this`isFullMode
      ensures ms >= 0 && ms % Quantum == 0
      ensures g.startOffset <= SegmentWidth / 2 ==> ms == 0
    {
      if isFullMode then 0 else NormalMillisecond(NearestTick(g.startOffset))
    }

    /** The list emptied with no add or delete pending, the ruler scrolled to show its beginning. */
    method ClearItems()
      requires Valid()
      modifies this`items, this`isOperating, this`operation, this`currentLeft
      ensures Valid() && items == [] && !isOperating && currentLeft == -(g.startOffset as real)
    {
      items, isOperating, operation := [], false, Idle;
      currentLeft := -(g.startOffset as real);
    }

    /**
     * `timeIndicator.updatePosition(0f)` on the reset ruler, then the playhead
     * put on position 0 without a settle.
     */
    method ResetPlayhead()
      requires Valid() && items == [] && currentLeft == -(g.startOffset as real)
      modifies this`events, timeIndicator
      ensures Valid() && timeIndicator.timePosition == 0
      ensures unchanged(rangeIndicator.markerA, rangeIndicator.markerB)
      ensures events == old(events) || events == old(events) + PositionChangedEvents(ResetMillisecond(), [])
    {
      WholeNumbersFixed(-g.startOffset);
      WholeNumbersFixed(0);
      assert ClampedTimePosition(CurrentView(), 0.0) == g.startOffset;
      assert SnappedFullPosition(g, 0.0) == 0.0;
      var _ := UpdatePlayhead(0.0);
      timeIndicator.timePosition := 0;
    }

    /** A shown range is cleared, and `computeTime` clamps the scroll offset. */
    method ClearRangeAndScroll()
      requires Valid()
      modifies this`currentLeft, this`currentLeftIndex
      modifies rangeIndicator`isIndicatorAVisible, rangeIndicator`isIndicatorBVisible
      modifies rangeIndicator.markerA`timePosition, rangeIndicator.markerB`timePosition
      ensures Valid() && !rangeIndicator.isIndicatorAVisible && !rangeIndicator.isIndicatorBVisible
      ensures currentLeft == ClampCurrentLeft(g, old(currentLeft))
    {
      if rangeIndicator.isIndicatorAVisible {
        rangeIndicator.Reset();
      }
      ComputeTime();
    }

    /**
     * The guard of `setRangATime` and `setRangeBTime`: in normal mode the
     * list reaches the playhead's tick; in full mode the playhead is not right
     * of the last item's full-mode position.
     */
    predicate PlayheadWithinItems()
      requires g.Valid() && (isFullMode ==> |items| > 0)
      reads this`isFullMode, this`items, items`timePosition
      reads timeIndicator`timePosition, timeIndicator`timePositionInFullMode
    {
      if !isFullMode then TickIndex(timeIndicator.timePosition) <= |items| - 1
      else timeIndicator.timePositionInFullMode <= ConvertToFullModeTimePosition(g, items[|items| - 1].timePosition)
    }

    /**
     * In either mode the guard lets a marker be set exactly when the
     * playhead's time is not after the last item's time: in normal mode there
     * is an item under the playhead, in full mode the playhead's time is at
     * most that of the last item's tick.
     */
    lemma PlayheadWithinItemsByTime()
      requires Valid() && Hole() == -1 && (isFullMode ==> |items| > 0)
      ensures !isFullMode ==>
        (PlayheadWithinItems() <==> PlayheadIndex() < |items| && items[PlayheadIndex()].timePosition == timeIndicator.timePosition)
      ensures isFullMode ==>
        (PlayheadWithinItems() <==>
          timeIndicator.timePositionInFullMode * g.TimeOfPerPixel() <= ((|items| - 1) * Quantum) as real)
    {
      if isFullMode {
        assert items[|items| - 1].timePosition == (|items| - 1) * SegmentWidth;
        WithinLastTickByTime(g, timeIndicator.timePositionInFullMode, |items|);
      }
    }

    /**
     * `setRangATime`, ignored while the player runs: A is shown at the
     * playhead when the playhead is within the items, and `onSetA` fires.  In
     * full mode the source reads the last item, so the list must not be empty.
     */
    method SetRangeATime()
      requires Valid() && (isFullMode ==> |items| > 0)
      modifies rangeIndicator`isIndicatorAVisible, rangeIndicator.markerA`timePosition
      modifies rangeIndicator.markerA`timePositionInFullMode, this`events
      ensures Valid()
      ensures isPlaying || !PlayheadWithinItems() ==>
        unchanged(rangeIndicator, rangeIndicator.markerA) && events == old(events)
      ensures !isPlaying && PlayheadWithinItems() ==>
        && rangeIndicator.isIndicatorAVisible
        && (!isFullMode ==> rangeIndicator.markerA.timePosition == timeIndicator.timePosition)
        && (isFullMode ==> rangeIndicator.markerA.timePositionInFullMode == timeIndicator.timePositionInFullMode)
        && events == old(events) + [RangeASet]
      ensures !isFullMode ==> rangeIndicator.markerA.timePositionInFullMode == old(rangeIndicator.markerA.timePositionInFullMode)
      ensures isFullMode ==> rangeIndicator.markerA.timePosition == old(rangeIndicator.markerA.timePosition)
    {
      if isPlaying || !PlayheadWithinItems() {
        return;
      }
      var position := if !isFullMode then timeIndicator.timePosition as real else timeIndicator.timePositionInFullMode;
      WholeNumbersFixed(timeIndicator.timePosition);
      rangeIndicator.SetATime(isFullMode, position);
      Emit([RangeASet]);
    }

    /**
     * `setRangeBTime`: under the same guards as A, B is shown at the playhead
     * when A is shown and left alone otherwise; `onSetB` fires either way.
     */
    method SetRangeBTime()
      requires Valid() && (isFullMode ==> |items| > 0)
      modifies rangeIndicator`isIndicatorBVisible, rangeIndicator.markerB`timePosition
      modifies rangeIndicator.markerB`timePositionInFullMode, this`events
      ensures Valid()
      ensures isPlaying || !PlayheadWithinItems() ==>
        unchanged(rangeIndicator, rangeIndicator.markerB) && events == old(events)
      ensures !isPlaying && PlayheadWithinItems() ==> events == old(events) + [RangeBSet]
      ensures !isPlaying && PlayheadWithinItems() && rangeIndicator.isIndicatorAVisible ==>
        && rangeIndicator.isIndicatorBVisible
        && (!isFullMode ==> rangeIndicator.markerB.timePosition == timeIndicator.timePosition)
        && (isFullMode ==> rangeIndicator.markerB.timePositionInFullMode == timeIndicator.timePositionInFullMode)
      ensures !rangeIndicator.isIndicatorAVisible ==> unchanged(rangeIndicator, rangeIndicator.markerB)
      ensures !isFullMode ==> rangeIndicator.markerB.timePositionInFullMode == old(rangeIndicator.markerB.timePositionInFullMode)
      ensures isFullMode ==> rangeIndicator.markerB.timePosition == old(rangeIndicator.markerB.timePosition)
    {
      if isPlaying || !PlayheadWithinItems() {
        return;
      }
      var position := if !isFullMode then timeIndicator.timePosition as real else timeIndicator.timePositionInFullMode;
      WholeNumbersFixed(timeIndicator.timePosition);
      rangeIndicator.SetBTime(isFullMode, position);
      Emit([RangeBSet]);
    }

    /** `resetTimeRange`, ignored while the player runs: both markers cleared, and `onReset` fires. */
    method ResetTimeRange()
      requires Valid()
      modifies rangeIndicator`isIndicatorAVisible, rangeIndicator`isIndicatorBVisible
      modifies rangeIndicator.markerA`timePosition, rangeIndicator.markerB`timePosition, this`events
      ensures Valid()
      ensures isPlaying ==> unchanged(rangeIndicator, rangeIndicator.markerA, rangeIndicator.markerB) && events == old(events)
      ensures !isPlaying ==>
        && !rangeIndicator.isIndicatorAVisible && !rangeIndicator.isIndicatorBVisible
        && rangeIndicator.markerA.timePosition == 0 && rangeIndicator.markerB.timePosition == 0
        && events == old(events) + [RangeReset]
    {
      if isPlaying {
        return;
      }
      rangeIndicator.Reset();
      Emit([RangeReset]);
    }

    /**
     * `setFullMode` while the player is stopped, ignored during an add or
     * delete: the mode is set (again, if it is already the mode) and every
     * marker converted into it from its position in normal mode.
     */
    method SetFullMode(full: bool)
      requires Valid() && !isPlaying
      modifies this`isFullMode, this`currentLeft, this`currentLeftIndex
      modifies timeIndicator`timePosition, timeIndicator`timePositionInFullMode, timeIndicator`currentPositionInFullMode
      modifies playIndicator`timePosition, playIndicator`timePositionInFullMode, playIndicator`currentPositionInFullMode
      modifies rangeIndicator.markerA`timePosition, rangeIndicator.markerA`timePositionInFullMode
      modifies rangeIndicator.markerA`currentPositionInFullMode
      modifies rangeIndicator.markerB`timePosition, rangeIndicator.markerB`timePositionInFullMode
      modifies rangeIndicator.markerB`currentPositionInFullMode
      ensures Valid()
      ensures old(isOperating) ==>
        unchanged(this) && unchanged(timeIndicator, playIndicator, rangeIndicator.markerA, rangeIndicator.markerB)
      ensures !old(isOperating) ==> isFullMode == full
      ensures !old(isOperating) && full ==>
        && timeIndicator.timePosition == old(timeIndicator.timePosition)
        && timeIndicator.timePositionInFullMode == ConvertToFullModeTimePosition(g, timeIndicator.timePosition)
        && PlayheadMillisecond() == old(NormalMillisecond(timeIndicator.timePosition))
        && rangeIndicator.markerA.timePositionInFullMode == ConvertToFullModeTimePosition(g, rangeIndicator.markerA.timePosition)
        && rangeIndicator.markerB.timePositionInFullMode == ConvertToFullModeTimePosition(g, rangeIndicator.markerB.timePosition)
      ensures !old(isOperating) && !full ==>
        && timeIndicator.timePosition == ConvertToTimePosition(g, old(timeIndicator.timePositionInFullMode))
        && playIndicator.timePosition == timeIndicator.timePosition
        && rangeIndicator.markerA.timePosition == ConvertToTimePosition(g, old(rangeIndicator.markerA.timePositionInFullMode))
        && rangeIndicator.markerB.timePosition == ConvertToTimePosition(g, old(rangeIndicator.markerB.timePositionInFullMode))
        && currentLeft == ClampCurrentLeft(g, (timeIndicator.timePosition - screenCenterPosition) as real)
    {
      if isOperating {
        return;
      }
      isFullMode := full;
      if full {
        ConvertTimeToFullMode();
      } else {
        ConvertTimeToNormalMode();
      }
    }

    /**
     * `convertTimeToFullMode`: the playhead (and the play marker with it) and
     * both range markers get the full-mode position of their tick; their
     * normal-mode positions are kept.
     */
    method ConvertTimeToFullMode()
      requires Valid()
      modifies timeIndicator`timePositionInFullMode, timeIndicator`currentPositionInFullMode
      modifies playIndicator`timePositionInFullMode, playIndicator`currentPositionInFullMode
      modifies rangeIndicator.markerA`timePositionInFullMode, rangeIndicator.markerA`currentPositionInFullMode
      modifies rangeIndicator.markerB`timePositionInFullMode, rangeIndicator.markerB`currentPositionInFullMode
      ensures Valid()
      ensures timeIndicator.timePositionInFullMode == ConvertToFullModeTimePosition(g, timeIndicator.timePosition)
      ensures timeIndicator.currentPositionInFullMode == timeIndicator.timePositionInFullMode + g.startOffset as real
      ensures playIndicator.timePositionInFullMode == timeIndicator.timePositionInFullMode
      ensures playIndicator.currentPositionInFullMode == timeIndicator.currentPositionInFullMode
      ensures rangeIndicator.markerA.timePositionInFullMode == ConvertToFullModeTimePosition(g, rangeIndicator.markerA.timePosition)
      ensures rangeIndicator.markerB.timePositionInFullMode == ConvertToFullModeTimePosition(g, rangeIndicator.markerB.timePosition)
      ensures FullMillisecond(g, timeIndicator.timePositionInFullMode) == NormalMillisecond(timeIndicator.timePosition)
    {
      var a, b := rangeIndicator.markerA.timePosition, rangeIndicator.markerB.timePosition;
      ConvertRoundTrip(g, timeIndicator.timePosition);
      ConvertRoundTrip(g, a);
      ConvertRoundTrip(g, b);
      SwitchKeepsTime(g, timeIndicator.timePosition);
      var p := ConvertToFullModeTimePosition(g, timeIndicator.timePosition);
      timeIndicator.timePositionInFullMode := p;
      timeIndicator.currentPositionInFullMode := p + g.startOffset as real;
      playIndicator.timePositionInFullMode := p;
      playIndicator.currentPositionInFullMode := p + g.startOffset as real;
      rangeIndicator.SetIndicatorATimePositionInFullMode(g, ConvertToFullModeTimePosition(g, a));
      rangeIndicator.SetIndicatorBTimePositionInFullMode(g, ConvertToFullModeTimePosition(g, b));
    }

    /**
     * `convertTimeToNormalMode`: the playhead (and the play marker with it)
     * and both range markers get the tick of their full-mode position, and the
     * ruler scrolls to centre the playhead, as far as `computeTime` lets it.
     */
    method ConvertTimeToNormalMode()
      requires Valid()
      modifies this`currentLeft, this`currentLeftIndex, timeIndicator`timePosition, playIndicator`timePosition
      modifies rangeIndicator.markerA`timePosition, rangeIndicator.markerB`timePosition
      ensures Valid()
      ensures timeIndicator.timePosition == ConvertToTimePosition(g, timeIndicator.timePositionInFullMode)
      ensures playIndicator.timePosition == timeIndicator.timePosition
      ensures rangeIndicator.markerA.timePosition == ConvertToTimePosition(g, rangeIndicator.markerA.timePositionInFullMode)
      ensures rangeIndicator.markerB.timePosition == ConvertToTimePosition(g, rangeIndicator.markerB.timePositionInFullMode)
      ensures currentLeft == ClampCurrentLeft(g, (timeIndicator.timePosition - screenCenterPosition) as real)
    {
      var a, b := rangeIndicator.markerA.timePositionInFullMode, rangeIndicator.markerB.timePositionInFullMode;
      ConvertToTimePositionNonNegative(g, timeIndicator.timePositionInFullMode);
      ConvertToTimePositionNonNegative(g, a);
      ConvertToTimePositionNonNegative(g, b);
      var t := ConvertToTimePosition(g, timeIndicator.timePositionInFullMode);
      timeIndicator.timePosition := t;
      playIndicator.timePosition := t;
      rangeIndicator.SetIndicatorATimePosition(ConvertToTimePosition(g, a));
      rangeIndicator.SetIndicatorBTimePosition(ConvertToTimePosition(g, b));
      ScrollTo((t - screenCenterPosition) as real);
    }

    /**
     * `getCurrentTimeItem`: the timeline item under the playhead, if any; in
     * normal mode, the item of the playhead's tick when the list reaches it.
     */
    method GetCurrentTimeItem() returns (item: Option<TimeItem>)
      requires Valid()
      ensures item.Some? ==> item.value in TimeItems()
      ensures Hole() == -1 && !isFullMode ==>
        item == (if PlayheadIndex() < |items| then Some(TimeItems()[PlayheadIndex()]) else None)
    {
      var timeItemIndex := GetCurrentTimeIndex();
      item := if timeItemIndex != -1 then Some(items[timeItemIndex].timeItem) else None;
    }

    /** `getTimeItems`: the items' timeline items, collected in list order. */
    method GetTimeItems() returns (timeItems: seq<TimeItem>)
      ensures timeItems == TimeItems()
    {
      timeItems := [];
      var i := 0;
      while i < |items|
        invariant 0 <= i <= |items|
        invariant |timeItems| == i && forall j | 0 <= j < i :: timeItems[j] == items[j].timeItem
      {
        timeItems := timeItems + [items[i].timeItem];
        i := i + 1;
      }
    }

    /** `callbackStart`: `onStart` fires only once per playback session. */
    method CallbackStart()
      modifies this`isCalledStart, this`events
      ensures isCalledStart
      ensures events == old(events) + (if old(isCalledStart) then [] else [PlayStarted])
    {
      if !isCalledStart {
        isCalledStart := true;
        Emit([PlayStarted]);
      }
    }

    /**
     * `play`, rejected on an empty list and while playing: a new session (so
     * `onStart` may fire again) with the given repeat flag and animation
     * setting, then the player of the current mode.
     */
    method Play(isRepeat: bool, animatorEnabled: bool)
      requires Valid()
      modifies this`isAnimatorEnable, this`isRepeatPlay, this`isPlaying, this`isCalledStart
      modifies this`isNeedResetPlayIndicator, this`isCancel, this`startPlayTimePosition, this`stopPlayTimeIndex
      modifies this`startPlayTimeIndex, this`isNeedToPlay, this`centering
      modifies this`startPlayRealPosition, this`playAnimating, this`tickQueued, this`events
      modifies rangeIndicator`isIndicatorAVisible, rangeIndicator`isIndicatorBVisible
      modifies rangeIndicator.markerA`timePosition, rangeIndicator.markerB`timePosition
      modifies playIndicator`timePosition, playIndicator`timePositionInFullMode
      modifies timeIndicator`isVisible, playIndicator`isVisible
      ensures Valid()
      ensures old(|items| == 0 || isPlaying) ==>
        unchanged(this) && unchanged(timeIndicator, playIndicator, rangeIndicator, rangeIndicator.markerA, rangeIndicator.markerB)
      ensures !old(|items| == 0 || isPlaying) ==>
        isPlaying && isRepeatPlay == isRepeat && isAnimatorEnable == animatorEnabled
      ensures !old(|items| == 0 || isPlaying) && !isFullMode ==>
        && startPlayTimePosition == old(PlayStart()) && playIndicator.timePosition == startPlayTimePosition
        && startPlayTimeIndex == TickIndex(startPlayTimePosition)
        && (startPlayTimePosition as real - currentLeft != screenCenterPosition as real ==>
              !isCalledStart && isNeedToPlay && events == old(events))
        && (startPlayTimePosition as real - currentLeft == screenCenterPosition as real ==>
              isCalledStart && events == old(events) + [PlayStarted])
      ensures !old(|items| == 0 || isPlaying) && isFullMode ==>
        isCalledStart && events == old(events) + [PlayStarted]
    {
      if |items| == 0 || isPlaying {
        return;
      }
      ghost var start := PlayStart();
      StartSession(isRepeat, animatorEnabled);
      assert PlayStart() == start;
      if !isFullMode {
        PreparePlay();
      } else {
        PlayInFullMode();
      }
    }

    /** A new playback session: playing, with its own `onStart` still to come. */
    method StartSession(isRepeat: bool, animatorEnabled: bool)
      modifies this`isAnimatorEnable, this`isRepeatPlay, this`isPlaying, this`isCalledStart
      ensures isPlaying && !isCalledStart && isRepeatPlay == isRepeat && isAnimatorEnable == animatorEnabled
    {
      isAnimatorEnable, isRepeatPlay, isPlaying, isCalledStart := animatorEnabled, isRepeat, true, false;
    }

    /**
     * Where `preparePlay` starts playback: at the playhead, or at position 0
     * when the playhead is past the last item.
     */
    function PlayStart(): (start: int)
      requires |items| > 0
      reads this`items, items`timePosition, timeIndicator`timePosition
      ensures start == 0 || start == timeIndicator.timePosition
      ensures start <= items[|items| - 1].timePosition || start == 0
    {
      if timeIndicator.timePosition > items[|items| - 1].timePosition then 0 else timeIndicator.timePosition
    }

    /** With every item on its own tick, playback starts on a tick that has an item. */
    lemma PlayStartHasItem()
      requires Valid() && Hole() == -1 && |items| > 0
      ensures OnTick(PlayStart()) && TickIndex(PlayStart()) < |items|
      ensures items[TickIndex(PlayStart())].timePosition == PlayStart()
    {
      var last := items[|items| - 1].timePosition;
      assert last == (|items| - 1) * SegmentWidth;
      TickIndexMonotone(PlayStart(), last);
    }

    /**
     * `preparePlay`: the start (`PlayStart`) and the stop index (B's item when
     * B is shown, else the last item, with a lone A cleared); then either
     * centre the start first or, when it is already in the middle, play.
     */
    method PreparePlay()
      requires Valid() && !isFullMode && |items| > 0
      modifies this`isNeedResetPlayIndicator, this`isCancel, this`startPlayTimePosition, this`stopPlayTimeIndex
      modifies this`startPlayTimeIndex, this`isNeedToPlay, this`centering
      modifies this`startPlayRealPosition, this`playAnimating, this`tickQueued, this`isCalledStart, this`events
      modifies rangeIndicator`isIndicatorAVisible, rangeIndicator`isIndicatorBVisible
      modifies rangeIndicator.markerA`timePosition, rangeIndicator.markerB`timePosition
      modifies playIndicator`timePosition, timeIndicator`isVisible, playIndicator`isVisible
      ensures Valid() && !isNeedResetPlayIndicator && !isCancel
      ensures startPlayTimePosition == old(PlayStart()) && playIndicator.timePosition == startPlayTimePosition
      ensures startPlayTimeIndex == TickIndex(startPlayTimePosition)
      ensures -1 <= stopPlayTimeIndex < |items|
      ensures old(rangeIndicator.isIndicatorBVisible) && Hole() == -1 ==>
        stopPlayTimeIndex == SlotIndex(rangeIndicator.markerB.timePosition, |items|)
      ensures !old(rangeIndicator.isIndicatorBVisible) ==>
        stopPlayTimeIndex == |items| - 1 && !rangeIndicator.isIndicatorAVisible && !rangeIndicator.isIndicatorBVisible
      ensures startPlayTimePosition as real - currentLeft != screenCenterPosition as real ==>
        && isNeedToPlay && centering == Some((startPlayTimePosition - screenCenterPosition) as real)
        && events == old(events) && isCalledStart == old(isCalledStart)
      ensures startPlayTimePosition as real - currentLeft == screenCenterPosition as real ==>
        && isCalledStart && playIndicator.isVisible && !timeIndicator.isVisible
        && (isAnimatorEnable ==> playAnimating) && (!isAnimatorEnable ==> tickQueued)
        && events == old(events) + (if old(isCalledStart) then [] else [PlayStarted])
    {
      SetPlayRange();
      StartOrCenter();
    }

    /** The first half of `preparePlay`: where playback starts and at which index it stops. */
    method SetPlayRange()
      requires Valid() && |items| > 0
      modifies this`isNeedResetPlayIndicator, this`isCancel, this`startPlayTimePosition, this`stopPlayTimeIndex
      modifies this`startPlayTimeIndex
      modifies rangeIndicator`isIndicatorAVisible, rangeIndicator`isIndicatorBVisible
      modifies rangeIndicator.markerA`timePosition, rangeIndicator.markerB`timePosition, playIndicator`timePosition
      ensures Valid() && !isNeedResetPlayIndicator && !isCancel
      ensures startPlayTimePosition == old(PlayStart()) && playIndicator.timePosition == startPlayTimePosition
      ensures startPlayTimeIndex == TickIndex(startPlayTimePosition)
      ensures -1 <= stopPlayTimeIndex < |items|
      ensures old(rangeIndicator.isIndicatorBVisible) ==> unchanged(rangeIndicator, rangeIndicator.markerB)
      ensures old(rangeIndicator.isIndicatorBVisible) && Hole() == -1 ==>
        stopPlayTimeIndex == SlotIndex(rangeIndicator.markerB.timePosition, |items|)
      ensures !old(rangeIndicator.isIndicatorBVisible) ==>
        stopPlayTimeIndex == |items| - 1 && !rangeIndicator.isIndicatorAVisible && !rangeIndicator.isIndicatorBVisible
    {
      isNeedResetPlayIndicator, isCancel := false, false;
      var start := PlayStart();
      startPlayTimePosition := start;
      stopPlayTimeIndex := ChooseStop();
      playIndicator.timePosition := start;
      startPlayTimeIndex := TickIndex(start);
    }

    /** Where playback stops: at B's item when B is shown, else at the last item, with a lone A cleared. */
    method ChooseStop() returns (stop: int)
      requires Valid() && |items| > 0
      modifies rangeIndicator`isIndicatorAVisible, rangeIndicator`isIndicatorBVisible
      modifies rangeIndicator.markerA`timePosition, rangeIndicator.markerB`timePosition
      ensures Valid() && -1 <= stop < |items|
      ensures old(rangeIndicator.isIndicatorBVisible) ==> unchanged(rangeIndicator, rangeIndicator.markerB)
      ensures old(rangeIndicator.isIndicatorBVisible) && Hole() == -1 ==>
        stop == SlotIndex(rangeIndicator.markerB.timePosition, |items|)
      ensures !old(rangeIndicator.isIndicatorBVisible) ==>
        stop == |items| - 1 && !rangeIndicator.isIndicatorAVisible && !rangeIndicator.isIndicatorBVisible
    {
      if !rangeIndicator.isIndicatorBVisible {
        stop := |items| - 1;
        rangeIndicator.Reset();
      } else {
        stop := GetTimeIndex(rangeIndicator.markerB.timePosition);
      }
    }

    /**
     * The second half of `preparePlay`: a start away from the middle of the
     * view is centred first (playback follows the centring), a start in the
     * middle plays at once.
     */
    method StartOrCenter()
      requires IndicatorsDistinct()
      modifies this`isNeedToPlay, this`centering
      modifies this`startPlayRealPosition, this`playAnimating, this`tickQueued, this`isCalledStart, this`events
      modifies timeIndicator`isVisible, playIndicator`isVisible
      ensures startPlayTimePosition as real - currentLeft != screenCenterPosition as real ==>
        && isNeedToPlay && centering == Some((startPlayTimePosition - screenCenterPosition) as real)
        && events == old(events) && isCalledStart == old(isCalledStart)
      ensures startPlayTimePosition as real - currentLeft == screenCenterPosition as real ==>
        && isCalledStart && playIndicator.isVisible && !timeIndicator.isVisible
        && (isAnimatorEnable ==> playAnimating) && (!isAnimatorEnable ==> tickQueued)
        && events == old(events) + (if old(isCalledStart) then [] else [PlayStarted])
    {
      var realPosition := startPlayTimePosition as real - currentLeft;
      if realPosition != screenCenterPosition as real {
        isNeedToPlay := true;
        centering := Some((startPlayTimePosition - screenCenterPosition) as real);
      } else {
        DoPlay();
      }
    }

    /**
     * `doPlay`: the play indicator replaces the playhead on screen, the
     * session's `onStart` fires if it has not yet, and the player starts: the
     * play animation, or the first message of the stepped player.
     */
    method DoPlay()
      requires IndicatorsDistinct()
      modifies this`startPlayRealPosition, this`playAnimating, this`tickQueued, this`isCalledStart, this`events
      modifies timeIndicator`isVisible, playIndicator`isVisible
      ensures isCalledStart && playIndicator.isVisible && !timeIndicator.isVisible
      ensures startPlayRealPosition == playIndicator.timePosition - TruncToInt(currentLeft)
      ensures isAnimatorEnable ==> playAnimating && tickQueued == old(tickQueued)
      ensures !isAnimatorEnable ==> tickQueued && playAnimating == old(playAnimating)
      ensures events == old(events) + (if old(isCalledStart) then [] else [PlayStarted])
    {
      startPlayRealPosition := playIndicator.timePosition - TruncToInt(currentLeft);
      playIndicator.isVisible, timeIndicator.isVisible := true, false;
      if isAnimatorEnable {
        playAnimating := true;
      } else {
        tickQueued := true;
      }
      CallbackStart();
    }

    /**
     * The start of `playInFullMode`: the play indicator replaces the playhead,
     * from the playhead's full-mode position or from 0 when that is past the
     * last item; a lone A is cleared; `onStart` fires.
     */
    method PlayInFullMode()
      requires Valid() && |items| > 0
      modifies this`isCalledStart, this`events, timeIndicator`isVisible, playIndicator`isVisible
      modifies playIndicator`timePositionInFullMode
      modifies rangeIndicator`isIndicatorAVisible, rangeIndicator`isIndicatorBVisible
      modifies rangeIndicator.markerA`timePosition, rangeIndicator.markerB`timePosition
      ensures Valid() && isCalledStart && playIndicator.isVisible && !timeIndicator.isVisible
      ensures var last := ConvertToFullModeTimePosition(g, items[|items| - 1].timePosition);
        playIndicator.timePositionInFullMode ==
          (if timeIndicator.timePositionInFullMode > last then 0.0 else timeIndicator.timePositionInFullMode)
      ensures !old(rangeIndicator.isIndicatorBVisible) ==> !rangeIndicator.isIndicatorAVisible
      ensures old(rangeIndicator.isIndicatorBVisible) ==> unchanged(rangeIndicator, rangeIndicator.markerA, rangeIndicator.markerB)
      ensures events == old(events) + (if old(isCalledStart) then [] else [PlayStarted])
    {
      playIndicator.isVisible, timeIndicator.isVisible := true, false;
      var start := timeIndicator.timePositionInFullMode;
      if start > ConvertToFullModeTimePosition(g, items[|items| - 1].timePosition) {
        start := 0.0;
      }
      if !rangeIndicator.isIndicatorBVisible {
        rangeIndicator.Reset();
      }
      playIndicator.timePositionInFullMode := start;
      CallbackStart();
    }

    /**
     * The scroll offset the stepped player leaves: when the play position is
     * right of the middle of the view, the ruler scrolls so that it is in the
     * middle.
     */
    function FollowPlayhead(currentLeft: real, position: int): (left: real)
      ensures position as real - left <= screenCenterPosition as real
      ensures left >= currentLeft
      ensures position as real - currentLeft <= screenCenterPosition as real ==> left == currentLeft
    {
      if position as real - currentLeft > screenCenterPosition as real then (position - screenCenterPosition) as real
      else currentLeft
    }

    /**
     * A message of the stepped player (`playHandler`), as intended: the next
     * index; past the stop index the session ends (or repeats); otherwise the
     * play indicator and the playhead go to that index's tick, the ruler
     * follows, `onTimeChanged` reports the tick's time and item, and the
     * session ends (or repeats) at the stop index or the next message is
     * queued.
     */
    method PlayTick()
      requires Valid() && tickQueued && -1 <= startPlayTimeIndex && stopPlayTimeIndex < |items|
      modifies this`startPlayTimeIndex, this`tickQueued, this`resetQueued, this`isPlaying
      modifies this`currentLeft, this`currentLeftIndex, this`events
      modifies playIndicator`timePosition, timeIndicator`timePosition, timeIndicator`isVisible, playIndicator`isVisible
      ensures Valid()
      ensures startPlayTimeIndex == old(startPlayTimeIndex) + 1
      ensures var i := startPlayTimeIndex;
        && (tickQueued <==> i < stopPlayTimeIndex)
        && (i >= stopPlayTimeIndex ==> resetQueued && (isPlaying <==> old(isPlaying) && isRepeatPlay))
        && (i >= stopPlayTimeIndex && !isRepeatPlay ==> timeIndicator.isVisible && !playIndicator.isVisible)
        && (i < stopPlayTimeIndex ==> isPlaying == old(isPlaying) && resetQueued == old(resetQueued))
      ensures var i := startPlayTimeIndex;
        i > stopPlayTimeIndex ==>
          && playIndicator.timePosition == old(playIndicator.timePosition)
          && events == old(events) + (if isRepeatPlay then [] else [PlayStopped])
      ensures var i := startPlayTimeIndex;
        i <= stopPlayTimeIndex ==>
          && playIndicator.timePosition == i * SegmentWidth && timeIndicator.timePosition == i * SegmentWidth
          && (old(Hole()) == -1 ==> items[i].timePosition == playIndicator.timePosition)
          && events == old(events) + [PlayTimeChanged(TickTime(i), items[i].timeItem)]
                                   + (if i == stopPlayTimeIndex && !isRepeatPlay then [PlayStopped] else [])
      ensures var i := startPlayTimeIndex;
        && (i < stopPlayTimeIndex ==> currentLeft == ClampCurrentLeft(g, FollowPlayhead(old(currentLeft), i * SegmentWidth)))
        && (i == stopPlayTimeIndex ==> currentLeft == FollowPlayhead(old(currentLeft), i * SegmentWidth))
    {
      startPlayTimeIndex := startPlayTimeIndex + 1;
      if startPlayTimeIndex > stopPlayTimeIndex {
        EndOfPlay();
      } else {
        StepTo(startPlayTimeIndex);
      }
    }

    /**
     * `playHandler` as written: past the stop index (playback that started on
     * the stop index) the play indicator is hidden and the reset posted, but
     * the session never ends: `isPlaying` stays set and `onStop` never fires.
     */
    method PlayTickAsWritten()
      requires Valid() && tickQueued && -1 <= startPlayTimeIndex && stopPlayTimeIndex < |items|
      modifies this`startPlayTimeIndex, this`tickQueued, this`resetQueued, this`isPlaying
      modifies this`currentLeft, this`currentLeftIndex, this`events
      modifies playIndicator`timePosition, timeIndicator`timePosition, timeIndicator`isVisible, playIndicator`isVisible
      ensures Valid()
      ensures startPlayTimeIndex == old(startPlayTimeIndex) + 1
      ensures var i := startPlayTimeIndex;
        && (tickQueued <==> i < stopPlayTimeIndex)
        && (i == stopPlayTimeIndex ==> resetQueued && (isPlaying <==> old(isPlaying) && isRepeatPlay))
        && (i > stopPlayTimeIndex ==> resetQueued && isPlaying == old(isPlaying) && events == old(events))
        && (i >= stopPlayTimeIndex && !isRepeatPlay ==> timeIndicator.isVisible && !playIndicator.isVisible)
      ensures var i := startPlayTimeIndex;
        i <= stopPlayTimeIndex ==>
          && playIndicator.timePosition == i * SegmentWidth && timeIndicator.timePosition == i * SegmentWidth
          && events == old(events) + [PlayTimeChanged(TickTime(i), items[i].timeItem)]
                                   + (if i == stopPlayTimeIndex && !isRepeatPlay then [PlayStopped] else [])
    {
      startPlayTimeIndex := startPlayTimeIndex + 1;
      if startPlayTimeIndex > stopPlayTimeIndex {
        tickQueued, resetQueued := false, true;
        if !isRepeatPlay {
          playIndicator.isVisible, timeIndicator.isVisible := false, true;
        }
      } else {
        StepTo(startPlayTimeIndex);
      }
    }

    /**
     * The stepped player past the stop index: the reset is posted and, unless
     * repeating, the play indicator hidden and the session ended with `onStop`.
     */
    method EndOfPlay()
      requires IndicatorsDistinct()
      modifies this`tickQueued, this`resetQueued, this`isPlaying, this`events
      modifies timeIndicator`isVisible, playIndicator`isVisible
      ensures !tickQueued && resetQueued && (isPlaying <==> old(isPlaying) && isRepeatPlay)
      ensures !isRepeatPlay ==> timeIndicator.isVisible && !playIndicator.isVisible
      ensures isRepeatPlay ==> unchanged(timeIndicator`isVisible, playIndicator`isVisible)
      ensures events == old(events) + (if isRepeatPlay then [] else [PlayStopped])
    {
      tickQueued, resetQueued := false, true;
      if !isRepeatPlay {
        playIndicator.isVisible, timeIndicator.isVisible := false, true;
        isPlaying := false;
        Emit([PlayStopped]);
      }
    }

    /** The stepped player at index i, up to the stop index. */
    method StepTo(i: int)
      requires Valid() && tickQueued && 0 <= i <= stopPlayTimeIndex < |items|
      modifies this`tickQueued, this`resetQueued, this`isPlaying
      modifies this`currentLeft, this`currentLeftIndex, this`events
      modifies playIndicator`timePosition, timeIndicator`timePosition, timeIndicator`isVisible, playIndicator`isVisible
      ensures Valid() && (tickQueued <==> i < stopPlayTimeIndex)
      ensures playIndicator.timePosition == i * SegmentWidth && timeIndicator.timePosition == i * SegmentWidth
      ensures old(Hole()) == -1 ==> items[i].timePosition == playIndicator.timePosition
      ensures i == stopPlayTimeIndex ==> resetQueued && (isPlaying <==> old(isPlaying) && isRepeatPlay)
      ensures i == stopPlayTimeIndex && !isRepeatPlay ==> timeIndicator.isVisible && !playIndicator.isVisible
      ensures i < stopPlayTimeIndex ==> isPlaying == old(isPlaying) && resetQueued == old(resetQueued)
      ensures events == old(events) + [PlayTimeChanged(TickTime(i), items[i].timeItem)]
                                    + (if i == stopPlayTimeIndex && !isRepeatPlay then [PlayStopped] else [])
      ensures i < stopPlayTimeIndex ==> currentLeft == ClampCurrentLeft(g, FollowPlayhead(old(currentLeft), i * SegmentWidth))
      ensures i == stopPlayTimeIndex ==> currentLeft == FollowPlayhead(old(currentLeft), i * SegmentWidth)
    {
      PlaceStepped(i);
      Emit([PlayTimeChanged(TickTime(i), items[i].timeItem)]);
      if i == stopPlayTimeIndex {
        EndOfPlay();
      } else {
        ComputeTime();
      }
    }

    /** Both indicators on tick i, and the ruler scrolled to keep the play indicator from passing the middle. */
    method PlaceStepped(i: int)
      requires Valid() && i >= 0
      modifies this`currentLeft, playIndicator`timePosition, timeIndicator`timePosition
      ensures Valid()
      ensures playIndicator.timePosition == i * SegmentWidth && timeIndicator.timePosition == i * SegmentWidth
      ensures currentLeft == FollowPlayhead(old(currentLeft), i * SegmentWidth)
    {
      playIndicator.timePosition := i * SegmentWidth;
      timeIndicator.timePosition := playIndicator.timePosition;
      currentLeft := FollowPlayhead(currentLeft, playIndicator.timePosition);
    }

    /**
     * `resetPlayTime`, posted at the end of playback: the playhead and the
     * play indicator go back to A when the range is set, else to position 0,
     * `onTimeChanged` reports that tick with its item, and the centring
     * animation scrolls there (to the beginning of the ruler without a range).
     * The source reads the item of that tick, so it must exist.
     */
    method RunQueuedReset()
      requires Valid() && resetQueued && |items| > 0
      requires rangeIndicator.isIndicatorBVisible ==> TickIndex(rangeIndicator.markerA.timePosition) < |items|
      modifies this`resetQueued, this`isNeedToPlay, this`centering, this`events
      modifies timeIndicator`timePosition, playIndicator`timePosition
      ensures Valid() && !resetQueued && !isNeedToPlay
      ensures var start := if rangeIndicator.isIndicatorBVisible then rangeIndicator.markerA.timePosition else 0;
        && timeIndicator.timePosition == start && playIndicator.timePosition == start
        && centering == Some(if rangeIndicator.isIndicatorBVisible then (start - screenCenterPosition) as real
                             else -(g.startOffset as real))
        && events == old(events) + [PlayTimeChanged(TickTime(TickIndex(start)), items[TickIndex(start)].timeItem)]
      ensures Hole() == -1 ==> items[TickIndex(timeIndicator.timePosition)].timePosition == timeIndicator.timePosition
    {
      resetQueued, isNeedToPlay := false, false;
      var start := if rangeIndicator.isIndicatorBVisible then rangeIndicator.markerA.timePosition else 0;
      centering := Some(if rangeIndicator.isIndicatorBVisible then (start - screenCenterPosition) as real
                        else -(g.startOffset as real));
      timeIndicator.timePosition := start;
      playIndicator.timePosition := start;
      var timeIndex := TickIndex(start);
      Emit([PlayTimeChanged(TickTime(timeIndex), items[timeIndex].timeItem)]);
    }

    /**
     * The end of the centring animation, the ruler scrolled to its target: a
     * pending start plays (normal mode; in full mode `checkIfNeedToContinuePlay`
     * reports `onStop`), a repeat posts the next `preparePlay`, and otherwise
     * the playhead is shown again.
     */
    method FinishCentering()
      requires IndicatorsDistinct() && centering.Some?
      modifies this`currentLeft, this`currentLeftIndex, this`centering, this`preparePosts
      modifies this`startPlayRealPosition, this`playAnimating, this`tickQueued, this`isCalledStart, this`events
      modifies timeIndicator`isVisible, playIndicator`isVisible
      ensures centering.None? && currentLeft == ClampCurrentLeft(g, old(centering.value))
      ensures isNeedToPlay && !isFullMode ==>
        && isCalledStart && playIndicator.isVisible && !timeIndicator.isVisible
        && (isAnimatorEnable ==> playAnimating) && (!isAnimatorEnable ==> tickQueued)
        && events == old(events) + (if old(isCalledStart) then [] else [PlayStarted])
      ensures isNeedToPlay && isFullMode ==> events == old(events) + [PlayStopped]
      ensures !isNeedToPlay && isRepeatPlay ==> preparePosts == old(preparePosts) + 1 && events == old(events)
      ensures !isNeedToPlay && !isRepeatPlay ==>
        timeIndicator.isVisible && !playIndicator.isVisible && events == old(events)
    {
      var target := centering.value;
      centering := None;
      ScrollTo(target);
      if isNeedToPlay {
        if !isFullMode {
          DoPlay();
        } else {
          Emit([PlayStopped]);
        }
      } else if isRepeatPlay {
        preparePosts := preparePosts + 1;
      } else {
        timeIndicator.isVisible, playIndicator.isVisible := true, false;
      }
    }

    /**
     * A `preparePlay` posted by a repeat runs (in full mode
     * `checkIfNeedToContinuePlay` reports `onStop` instead).  The source reads
     * the last item, so the list must not be empty.
     */
    method RunPreparePost()
      requires Valid() && preparePosts > 0 && (!isFullMode ==> |items| > 0)
      modifies this`preparePosts
      modifies this`isNeedResetPlayIndicator, this`isCancel, this`startPlayTimePosition, this`stopPlayTimeIndex
      modifies this`startPlayTimeIndex, this`isNeedToPlay, this`centering
      modifies this`startPlayRealPosition, this`playAnimating, this`tickQueued, this`isCalledStart, this`events
      modifies rangeIndicator`isIndicatorAVisible, rangeIndicator`isIndicatorBVisible
      modifies rangeIndicator.markerA`timePosition, rangeIndicator.markerB`timePosition
      modifies playIndicator`timePosition, timeIndicator`isVisible, playIndicator`isVisible
      ensures Valid() && preparePosts == old(preparePosts) - 1
      ensures isFullMode ==> events == old(events) + [PlayStopped]
      ensures !isFullMode ==>
        startPlayTimePosition == old(PlayStart()) && playIndicator.timePosition == startPlayTimePosition
    {
      if !isFullMode {
        PreparePlay();
      } else {
        Emit([PlayStopped]);
      }
      preparePosts := preparePosts - 1;
    }

    /**
     * `stopPlay`, ignored unless playing: the session ends; the play animation
     * is cancelled, or the stepped player's pending messages (the next step and
     * a posted reset) are dropped and the playhead shown again; in full mode
     * the player stops with `onStop`.
     */
    method StopPlay()
      requires IndicatorsDistinct()
      modifies this`isPlaying, this`isRepeatPlay, this`isNeedToPlay, this`isCalledStart
      modifies this`playAnimating, this`tickQueued, this`resetQueued, this`events
      modifies timeIndicator`isVisible, playIndicator`isVisible
      ensures !old(isPlaying) ==> unchanged(this) && unchanged(timeIndicator, playIndicator)
      ensures old(isPlaying) ==> !isPlaying && !isRepeatPlay && !isNeedToPlay && !isCalledStart
      ensures old(isPlaying) && !isFullMode && isAnimatorEnable ==>
        !playAnimating && events == old(events) && unchanged(timeIndicator, playIndicator)
      ensures old(isPlaying) && !isFullMode && !isAnimatorEnable ==>
        !tickQueued && !resetQueued && timeIndicator.isVisible && !playIndicator.isVisible && events == old(events)
      ensures old(isPlaying) && isFullMode ==>
        timeIndicator.isVisible && !playIndicator.isVisible && events == old(events) + [PlayStopped]
    {
      if !isPlaying {
        return;
      }
      isPlaying, isRepeatPlay, isNeedToPlay, isCalledStart := false, false, false, false;
      if !isFullMode {
        if isAnimatorEnable {
          playAnimating := false;
        } else {
          tickQueued, resetQueued := false, false;
          timeIndicator.isVisible, playIndicator.isVisible := true, false;
        }
      } else {
        playIndicator.isVisible, timeIndicator.isVisible := false, true;
        Emit([PlayStopped]);
      }
    }
  }
}
