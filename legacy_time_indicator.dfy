/**
 * The playhead of the integer-position ruler.  In normal mode it settles on
 * the tick nearest to the touched position (ticks are 100 px apart) and
 * reports a change only when the tick changed; in full mode the whole ruler
 * fits the screen, and the time is snapped to the 200 ms grid.  The marker
 * also keeps the rectangle it is drawn in, which decides whether a touch hits it.
 */
module LegacyTimeIndicators {
  import opened KotlinNumerics
  import opened RulerScale
  import opened LegacyScale

  /** What an indicator reads from its ruler: the measurements, the scroll offset and the mode. */
  datatype View = View(g: Geometry, currentLeft: real, fullMode: bool)
  {
    predicate Valid() { g.Valid() }
  }

  /**
   * The timeline position `updatePosition` computes for a screen position,
   * before snapping.  While the ruler shows its beginning (negative scroll
   * offset) the two are truncated separately, added, and raised to at least
   * the start offset; otherwise their sum is truncated and capped at the
   * ruler's width.
   */
  function ClampedTimePosition(v: View, position: real): (c: int)
    ensures v.currentLeft < 0.0 ==> c >= v.g.startOffset
    ensures v.currentLeft < 0.0 ==> c == v.g.startOffset || c == TruncToInt(position) + TruncToInt(v.currentLeft)
    ensures v.currentLeft >= 0.0 ==> c <= SegmentMaxWidth
    ensures v.currentLeft >= 0.0 ==> c == SegmentMaxWidth || c == TruncToInt(v.currentLeft + position)
  {
    if v.currentLeft < 0.0 then
      var timePos := TruncToInt(position) + TruncToInt(v.currentLeft);
      if timePos < v.g.startOffset then v.g.startOffset else timePos
    else
      var timePos := TruncToInt(v.currentLeft + position);
      if timePos > SegmentMaxWidth then SegmentMaxWidth else timePos
  }

  /**
   * The tick `updatePosition` snaps to: the tick below, or the next one when
   * the remainder is more than half a segment (exactly half goes down).  The
   * truncating division makes a negative position go toward zero.
   */
  function NearestTick(c: int): (t: int)
    ensures OnTick(t)
    ensures c >= 0 ==> t >= 0 && c - SegmentWidth / 2 <= t < c + SegmentWidth / 2
    ensures c < 0 ==> t == TickIndex(c) * SegmentWidth
  {
    var timeIndex := KDiv(c, SegmentWidth);
    var offset := KRem(c, SegmentWidth);
    (if offset != 0 && offset > SegmentWidth / 2 then timeIndex + 1 else timeIndex) * SegmentWidth
  }

  /** A position already on a tick stays where it is. */
  lemma NearestTickOfTick(t: int)
    requires OnTick(t)
    ensures NearestTick(t) == t
  {
    assert KRem(t, SegmentWidth) == 0;
  }

  /** No tick is closer to a non-negative position than the one it snaps to. */
  lemma NearestTickIsNearest(c: int, t: int)
    requires c >= 0 && OnTick(t)
    ensures Abs(c - NearestTick(c)) <= Abs(c - t)
  {
    var n := NearestTick(c);
    var k, m := n / SegmentWidth, t / SegmentWidth;
    assert n == k * SegmentWidth && t == m * SegmentWidth;
    if m < k {
      assert t <= n - SegmentWidth;
    } else if m > k {
      assert t >= n + SegmentWidth;
    }
  }

  /** Snapping keeps the order of positions. */
  lemma NearestTickMonotone(c1: int, c2: int)
    requires c1 <= c2
    ensures NearestTick(c1) <= NearestTick(c2)
  {
    var n1, n2 := NearestTick(c1), NearestTick(c2);
    var k1, k2 := n1 / SegmentWidth, n2 / SegmentWidth;
    assert n1 == k1 * SegmentWidth && n2 == k2 * SegmentWidth;
    if c1 < 0 {
      TickIndexMonotone(c1, c2);
      if c2 >= 0 {
        assert TickIndex(c1) <= 0;
      }
    } else {
      assert (k1 - k2) * SegmentWidth < SegmentWidth;
    }
  }

  function Abs(x: int): int { if x < 0 then -x else x }

  /**
   * The tick `updatePosition` settles on for a screen position: a tick on the
   * ruler, never before its start while the beginning is shown and never past
   * its end once scrolled.
   */
  function SettledTimePosition(v: View, position: real): (t: int)
    requires v.Valid()
    ensures OnTick(t)
    ensures v.currentLeft < 0.0 ==> t >= 0
    ensures v.currentLeft >= 0.0 ==> t <= SegmentMaxWidth
    ensures v.currentLeft >= 0.0 && v.currentLeft + position >= 0.0 ==> t >= 0
  {
    NearestTick(ClampedTimePosition(v, position))
  }

  /** A position at most half a segment past a non-negative tick snaps to that tick or an earlier one. */
  lemma NearestTickBelow(c: int, t: int)
    requires OnTick(t) && t >= 0 && c <= t + SegmentWidth / 2
    ensures NearestTick(c) <= t
  {
    var n := NearestTick(c);
    if c >= 0 {
      var k, m := n / SegmentWidth, t / SegmentWidth;
      assert n == k * SegmentWidth && t == m * SegmentWidth;
      assert (k - m) * SegmentWidth < SegmentWidth;
    }
  }

  /** Moving further right on the screen never moves the unsnapped timeline position left. */
  lemma ClampedMonotone(v: View, p: real, q: real)
    requires p <= q
    ensures ClampedTimePosition(v, p) <= ClampedTimePosition(v, q)
  {
    ConversionsMonotone(p, q);
    ConversionsMonotone(v.currentLeft + p, v.currentLeft + q);
  }

  /** The screen position of a tick maps back to that tick, up to the clamps. */
  lemma ClampedOfTickScreen(v: View, t: int)
    requires t >= 0
    ensures v.currentLeft < 0.0 ==>
      ClampedTimePosition(v, t as real - v.currentLeft) == (if t < v.g.startOffset then v.g.startOffset else t)
    ensures v.currentLeft >= 0.0 ==>
      ClampedTimePosition(v, t as real - v.currentLeft) == (if t > SegmentMaxWidth then SegmentMaxWidth else t)
  {
    var cl := v.currentLeft;
    if cl < 0.0 {
      TruncAddWhole(t, -cl);
      TruncOfNegative(cl);
    } else {
      assert cl + (t as real - cl) == t as real;
      WholeNumbersFixed(t);
    }
  }

  lemma TruncAddWhole(n: int, y: real)
    requires n >= 0 && y >= 0.0
    ensures TruncToInt(n as real + y) == n + TruncToInt(y)
  {
  }

  lemma TruncOfNegative(x: real)
    requires x < 0.0
    ensures TruncToInt(x) == -TruncToInt(-x)
  {
  }

  /**
   * The full-mode screen position clamped between the ruler's start offset and
   * the screen width less the end offset.
   */
  function ClampToFullRuler(g: Geometry, position: real): (r: real)
    requires g.Valid()
    ensures g.startOffset as real <= r <= (g.screenWidth - g.endOffset) as real
    ensures g.startOffset as real <= position <= (g.screenWidth - g.endOffset) as real ==> r == position
  {
    if position < g.startOffset as real then g.startOffset as real
    else if position > (g.screenWidth - g.endOffset) as real then (g.screenWidth - g.endOffset) as real
    else position
  }

  /** The rounded time, in ms, of a full-mode screen position: within the ruler's ten minutes. */
  function FullTimeOf(g: Geometry, position: real): (ms: int)
    requires g.Valid()
    ensures 0 <= ms <= MaxTime * 1000
  {
    var tpp := g.TimeOfPerPixel();
    var p := ClampToFullRuler(g, position) - g.startOffset as real;
    ScaleByPositiveFactor(0.0, p, tpp);
    ScaleByPositiveFactor(p, g.FullWidth() as real, tpp);
    WholeNumbersFixed(MaxTime * 1000);
    ConversionsMonotone(p * tpp, (MaxTime * 1000) as real);
    RoundToInt(p * tpp)
  }

  /**
   * The full-mode timeline position `updatePositionInFullMode` settles on: the
   * clamped position itself when its rounded time is on the 200 ms grid, and
   * otherwise the position of the grid time below.
   */
  function SnappedFullPosition(g: Geometry, position: real): (p: real)
    requires g.Valid()
  {
    var tpp := g.TimeOfPerPixel();
    var fixed := ClampToFullRuler(g, position) - g.startOffset as real;
    var currentTime := RoundToInt(fixed * tpp);
    if KRem(currentTime, Quantum) != 0 then (KDiv(currentTime, Quantum) * Quantum) as real / tpp
    else fixed
  }

  /** The grid time `updatePositionInFullMode` settles on: the 200 ms grid time at or below the rounded time. */
  function FullSnapTime(g: Geometry, position: real): (ms: int)
    requires g.Valid()
    ensures ms % Quantum == 0 && 0 <= ms <= FullTimeOf(g, position) < ms + Quantum
  {
    KDiv(FullTimeOf(g, position), Quantum) * Quantum
  }

  /** A grid time divided by the time per pixel is a position whose rounded time is that grid time. */
  lemma GridPosition(tpp: real, ms: int)
    requires tpp > 0.0 && ms >= 0
    ensures ms as real / tpp >= 0.0
    ensures RoundToInt(ms as real / tpp * tpp) == ms
  {
    assert ms as real / tpp * tpp == ms as real;
    WholeNumbersFixed(ms);
  }

  /** The settled full-mode position is on the ruler and its rounded time is the settled grid time. */
  lemma SnappedFullPositionTime(g: Geometry, position: real)
    requires g.Valid()
    ensures SnappedFullPosition(g, position) >= 0.0
    ensures RoundToInt(SnappedFullPosition(g, position) * g.TimeOfPerPixel()) == FullSnapTime(g, position)
  {
    var tpp := g.TimeOfPerPixel();
    var fixed := ClampToFullRuler(g, position) - g.startOffset as real;
    var currentTime := RoundToInt(fixed * tpp);
    assert currentTime == FullTimeOf(g, position);
    if KRem(currentTime, Quantum) != 0 {
      GridPosition(tpp, FullSnapTime(g, position));
    } else {
      ScaleByPositiveFactor(0.0, fixed, tpp);
    }
  }

  /** The settled full-mode position converts back onto a tick of normal mode. */
  lemma SnappedFullPositionOnGrid(g: Geometry, position: real)
    requires g.Valid()
    ensures OnFullGrid(g, SnappedFullPosition(g, position))
  {
    var p := SnappedFullPosition(g, position);
    var ms := FullSnapTime(g, position);
    SnappedFullPositionTime(g, position);
    ConvertNearQuantum(g, p, ms / Quantum);
  }

  class TimeIndicator {
    /** Position on the timeline in normal mode (a multiple of the segment width once settled). */
    var timePosition: int
    /** Position on the screen in normal mode. */
    var currentPosition: int
    /** The normal-mode position last reported to the ruler. */
    var oldTimePosition: int
    /** Position on the timeline in full mode, measured from the start offset. */
    var timePositionInFullMode: real
    /** Position on the screen in full mode. */
    var currentPositionInFullMode: real
    /** The full-mode time last reported to the ruler, in ms. */
    var oldMillisecond: int
    var isVisible: bool
    var isDragging: bool

    /** Size, drawing offset and top of the marker. */
    const width: int
    const height: int
    const offsetX: int
    const offsetY: int
    const top: real

    /** The rectangle the marker is drawn in. */
    var rectLeft: real
    var rectTop: real
    var rectRight: real
    var rectBottom: real

    /** An optional touch area anchored at the rectangle's top-left corner. */
    var isCustomTouchArea: bool
    var customTouchWidth: int
    var customTouchHeight: int

    /**
     * A new marker on position 0, visible and not dragged.  Its top is the
     * ruler's top: the vertical offset is still zero when `init` reads it, and
     * the first rectangle is likewise laid out without offsets.
     */
    constructor (rulerStartTop: real, width: int, height: int, offsetX: int, offsetY: int)
      ensures this.width == width && this.height == height
      ensures this.offsetX == offsetX && this.offsetY == offsetY && top == rulerStartTop
      ensures timePosition == 0 && currentPosition == 0 && oldTimePosition == 0
      ensures timePositionInFullMode == 0.0 && currentPositionInFullMode == 0.0 && oldMillisecond == 0
      ensures isVisible && !isDragging && !isCustomTouchArea
      ensures rectLeft == 0.0 && rectTop == rulerStartTop
      ensures rectRight == width as real && rectBottom == rulerStartTop + height as real
    {
      this.width := width;
      this.height := height;
      this.offsetX := offsetX;
      this.offsetY := offsetY;
      top := rulerStartTop;
      timePosition := 0;
      currentPosition := 0;
      oldTimePosition := 0;
      timePositionInFullMode := 0.0;
      currentPositionInFullMode := 0.0;
      oldMillisecond := 0;
      isVisible := true;
      isDragging := false;
      rectLeft := 0.0;
      rectTop := rulerStartTop;
      rectRight := width as real;
      rectBottom := rulerStartTop + height as real;
      isCustomTouchArea := false;
      customTouchWidth := 0;
      customTouchHeight := 0;
    }

    /**
     * `refreshRect`: lay the rectangle out around a screen position, shifted by
     * the offsets; it is twice the marker's size.
     */
    method RefreshRect(x: real)
      modifies this`rectLeft, this`rectTop, this`rectRight, this`rectBottom
      ensures rectLeft == x - KDiv(width, 2) as real + offsetX as real
      ensures rectTop == top + offsetY as real
      ensures rectRight - rectLeft == (2 * width) as real
      ensures rectBottom - rectTop == (2 * height) as real
    {
      rectLeft := x - KDiv(width, 2) as real + offsetX as real;
      rectTop := top + offsetY as real;
      rectRight := rectLeft + (width * 2) as real;
      rectBottom := rectTop + (height * 2) as real;
    }

    /**
     * `isTouched`: the point is inside the rectangle with the offsets taken
     * back off (left and right edges included, the top edge excluded), or, with
     * a custom touch area, inside that area hung from the same corner.
     */
    predicate IsTouched(x: int, y: int)
      reads this`rectLeft, this`rectTop, this`rectRight, this`rectBottom
      reads this`isCustomTouchArea, this`customTouchWidth, this`customTouchHeight
    {
      var left, top' := rectLeft - offsetX as real, rectTop - offsetY as real;
      if !isCustomTouchArea then
        left <= x as real <= rectRight - offsetX as real
        && top' < y as real <= rectBottom - offsetY as real
      else
        left <= x as real <= left + customTouchWidth as real
        && top' < y as real <= top' + customTouchHeight as real
    }

    /** `setTouchArea`: from now on touches are tested against a custom area. */
    method SetTouchArea(w: int, h: int)
      modifies this`isCustomTouchArea, this`customTouchWidth, this`customTouchHeight
      ensures isCustomTouchArea && customTouchWidth == w && customTouchHeight == h
    {
      isCustomTouchArea := true;
      customTouchWidth := w;
      customTouchHeight := h;
    }

    /**
     * `updatePosition` in normal mode: settle on the nearest tick and report it
     * when it differs from the last reported position.  The slide from the old
     * screen position to the new one is an animation and is not modelled.
     */
    method UpdatePositionInNormalMode(v: View, position: real) returns (notified: bool)
      requires v.Valid()
      modifies this`timePosition, this`currentPosition, this`oldTimePosition
      ensures timePosition == SettledTimePosition(v, position)
      ensures currentPosition == timePosition - TruncToInt(v.currentLeft)
      ensures notified <==> old(oldTimePosition) != timePosition
      ensures oldTimePosition == timePosition
    {
      var timePos: int;
      if v.currentLeft < 0.0 {
        timePos := TruncToInt(position) + TruncToInt(v.currentLeft);
        if timePos < v.g.startOffset {
          timePos := v.g.startOffset;
        }
      } else {
        timePos := TruncToInt(v.currentLeft + position);
        if timePos > SegmentMaxWidth {
          timePos := SegmentMaxWidth;
        }
      }
      var timeIndex := KDiv(timePos, SegmentWidth);
      var offset := KRem(timePos, SegmentWidth);
      if offset != 0 && offset > SegmentWidth / 2 {
        timeIndex := timeIndex + 1;
      }
      timePosition := timeIndex * SegmentWidth;
      currentPosition := timePosition - TruncToInt(v.currentLeft);
      notified := oldTimePosition != timePosition;
      if notified {
        oldTimePosition := timePosition;
      }
    }

    /**
     * `updatePositionInFullMode`: clamp the position to the ruler, round its
     * time and, when that is off the 200 ms grid, move down to the grid time
     * below.  The marker then sits exactly on that time, which converts back
     * to a tick of normal mode, and the ruler hears of it when it changed.
     */
    method UpdatePositionInFullMode(g: Geometry, position: real) returns (notified: bool)
      requires g.Valid()
      modifies this`timePositionInFullMode, this`currentPositionInFullMode, this`oldMillisecond
      modifies this`rectLeft, this`rectTop, this`rectRight, this`rectBottom
      ensures timePositionInFullMode == SnappedFullPosition(g, position)
      ensures oldMillisecond == FullSnapTime(g, position)
      ensures timePositionInFullMode >= 0.0 && OnFullGrid(g, timePositionInFullMode)
      ensures currentPositionInFullMode == timePositionInFullMode + g.startOffset as real
      ensures rectLeft == currentPositionInFullMode - KDiv(width, 2) as real + offsetX as real
      ensures rectRight - rectLeft == (2 * width) as real
      ensures rectTop == top + offsetY as real && rectBottom - rectTop == (2 * height) as real
      ensures notified <==> old(oldMillisecond) != oldMillisecond
    {
      currentPositionInFullMode := ClampToFullRuler(g, position);
      var tif := SnappedFullPosition(g, position);
      var currentTime := RoundToInt(tif * g.TimeOfPerPixel());
      SnappedFullPositionTime(g, position);
      SnappedFullPositionOnGrid(g, position);
      timePositionInFullMode := tif;
      currentPositionInFullMode := timePositionInFullMode + g.startOffset as real;
      RefreshRect(currentPositionInFullMode);
      notified := oldMillisecond != currentTime;
      if notified {
        oldMillisecond := currentTime;
      }
    }

    /**
     * `moveTo` in normal mode (a drag): only the screen position follows,
     * held between the start offset and the end of the ruler on screen.
     */
    method MoveToInNormalMode(v: View, position: real)
      modifies this`currentPosition, this`rectLeft, this`rectTop, this`rectRight, this`rectBottom
      ensures currentPosition == DragPosition(v, position)
      ensures rectLeft == currentPosition as real - KDiv(width, 2) as real + offsetX as real
      ensures rectRight - rectLeft == (2 * width) as real
      ensures rectTop == top + offsetY as real && rectBottom - rectTop == (2 * height) as real
    {
      var limit := SegmentMaxWidth as real - v.currentLeft;
      if position < v.g.startOffset as real {
        currentPosition := v.g.startOffset;
      } else if position > limit {
        currentPosition := TruncToInt(limit);
      } else {
        currentPosition := TruncToInt(position);
      }
      RefreshRect(currentPosition as real);
    }

    /**
     * `moveToInFullMode` (a drag in full mode): the marker follows the clamped
     * position exactly; the time is the truncated time of that position moved
     * down to the 200 ms grid, and the ruler hears of it when it changed.
     */
    method MoveToInFullMode(g: Geometry, position: real) returns (notified: bool)
      requires g.Valid()
      modifies this`timePositionInFullMode, this`currentPositionInFullMode, this`oldMillisecond
      modifies this`rectLeft, this`rectTop, this`rectRight, this`rectBottom
      ensures currentPositionInFullMode == ClampToFullRuler(g, position)
      ensures timePositionInFullMode == currentPositionInFullMode - g.startOffset as real
      ensures oldMillisecond % Quantum == 0 && 0 <= oldMillisecond
      ensures oldMillisecond as real <= timePositionInFullMode * g.TimeOfPerPixel() < (oldMillisecond + Quantum) as real
      ensures rectLeft == currentPositionInFullMode - KDiv(width, 2) as real + offsetX as real
      ensures rectRight - rectLeft == (2 * width) as real
      ensures rectTop == top + offsetY as real && rectBottom - rectTop == (2 * height) as real
      ensures notified <==> old(oldMillisecond) != oldMillisecond
    {
      currentPositionInFullMode := ClampToFullRuler(g, position);
      timePositionInFullMode := currentPositionInFullMode - g.startOffset as real;
      var millisecond := FullMillisecond(g, timePositionInFullMode);
      notified := oldMillisecond != millisecond;
      if notified {
        oldMillisecond := millisecond;
      }
      RefreshRect(currentPositionInFullMode);
    }

    /**
     * `updatePosition`: in full mode the full-mode fields settle and the
     * normal-mode ones stay; in normal mode the other way round.
     */
    method UpdatePosition(v: View, position: real) returns (notified: bool)
      requires v.Valid()
      modifies this`timePosition, this`currentPosition, this`oldTimePosition
      modifies this`timePositionInFullMode, this`currentPositionInFullMode, this`oldMillisecond
      modifies this`rectLeft, this`rectTop, this`rectRight, this`rectBottom
      ensures !v.fullMode ==> timePosition == SettledTimePosition(v, position)
      ensures !v.fullMode ==> currentPosition == timePosition - TruncToInt(v.currentLeft)
      ensures !v.fullMode ==> (notified <==> old(oldTimePosition) != timePosition) && oldTimePosition == timePosition
      ensures !v.fullMode ==> unchanged(this`timePositionInFullMode, this`currentPositionInFullMode, this`oldMillisecond)
      ensures v.fullMode ==> timePositionInFullMode == SnappedFullPosition(v.g, position)
      ensures v.fullMode ==> oldMillisecond == FullSnapTime(v.g, position)
      ensures v.fullMode ==> timePositionInFullMode >= 0.0 && OnFullGrid(v.g, timePositionInFullMode)
      ensures v.fullMode ==> currentPositionInFullMode == timePositionInFullMode + v.g.startOffset as real
      ensures v.fullMode ==> (notified <==> old(oldMillisecond) != oldMillisecond)
      ensures v.fullMode ==> unchanged(this`timePosition, this`currentPosition, this`oldTimePosition)
    {
      if v.fullMode {
        notified := UpdatePositionInFullMode(v.g, position);
      } else {
        notified := UpdatePositionInNormalMode(v, position);
      }
    }

    /** `moveTo` (a drag): in full mode the full-mode fields follow; in normal mode only the screen position. */
    method MoveTo(v: View, position: real) returns (notified: bool)
      requires v.Valid()
      modifies this`currentPosition
      modifies this`timePositionInFullMode, this`currentPositionInFullMode, this`oldMillisecond
      modifies this`rectLeft, this`rectTop, this`rectRight, this`rectBottom
      ensures !v.fullMode ==> currentPosition == DragPosition(v, position) && !notified
      ensures !v.fullMode ==> unchanged(this`timePositionInFullMode, this`currentPositionInFullMode, this`oldMillisecond)
      ensures v.fullMode ==> currentPositionInFullMode == ClampToFullRuler(v.g, position)
      ensures v.fullMode ==> timePositionInFullMode == currentPositionInFullMode - v.g.startOffset as real
      ensures v.fullMode ==> oldMillisecond % Quantum == 0 && 0 <= oldMillisecond
      ensures v.fullMode ==> (notified <==> old(oldMillisecond) != oldMillisecond)
      ensures v.fullMode ==> currentPosition == old(currentPosition)
    {
      if v.fullMode {
        notified := MoveToInFullMode(v.g, position);
      } else {
        MoveToInNormalMode(v, position);
        notified := false;
      }
    }

    /**
     * The position refresh `onDraw` does for a shown marker that is neither
     * dragged nor off the right edge of the view: it follows the scroll offset.
     * The slide animation is taken to have ended.
     */
    method RefreshOnDraw(currentLeft: real, viewWidth: int)
      modifies this`currentPosition, this`rectLeft, this`rectTop, this`rectRight, this`rectBottom
      ensures isVisible && !isDragging && (timePosition as real - currentLeft < (viewWidth + width) as real) ==>
        currentPosition == TruncToInt(timePosition as real - currentLeft)
        && rectLeft == currentPosition as real - KDiv(width, 2) as real + offsetX as real
      ensures !(isVisible && !isDragging && (timePosition as real - currentLeft < (viewWidth + width) as real)) ==>
        currentPosition == old(currentPosition) && rectLeft == old(rectLeft) && rectRight == old(rectRight)
        && rectTop == old(rectTop) && rectBottom == old(rectBottom)
    {
      if isVisible && !isDragging && timePosition as real - currentLeft < (viewWidth + width) as real {
        currentPosition := TruncToInt(timePosition as real - currentLeft);
        RefreshRect(currentPosition as real);
      }
    }

    /**
     * The position refresh `onDrawInFullMode` does for a shown marker that is
     * not dragged: its screen position is recomputed from its timeline position.
     */
    method RefreshOnDrawInFullMode(g: Geometry)
      modifies this`currentPositionInFullMode, this`rectLeft, this`rectTop, this`rectRight, this`rectBottom
      ensures isVisible && !isDragging ==>
        currentPositionInFullMode == timePositionInFullMode + g.startOffset as real
        && rectLeft == currentPositionInFullMode - KDiv(width, 2) as real + offsetX as real
      ensures !(isVisible && !isDragging) ==>
        currentPositionInFullMode == old(currentPositionInFullMode) && rectLeft == old(rectLeft)
        && rectRight == old(rectRight) && rectTop == old(rectTop) && rectBottom == old(rectBottom)
    {
      if isVisible && !isDragging {
        currentPositionInFullMode := timePositionInFullMode + g.startOffset as real;
        RefreshRect(currentPositionInFullMode);
      }
    }
  }

  /**
   * The screen position a normal-mode drag holds the marker at: not left of the
   * start offset and, when the ruler's end is right of that, not past the end.
   */
  function DragPosition(v: View, position: real): (x: int)
    ensures v.g.startOffset >= 0 && v.g.startOffset as real <= SegmentMaxWidth as real - v.currentLeft ==>
      v.g.startOffset <= x && x as real <= SegmentMaxWidth as real - v.currentLeft
    ensures v.g.startOffset as real <= position <= SegmentMaxWidth as real - v.currentLeft ==> x == TruncToInt(position)
  {
    var limit := SegmentMaxWidth as real - v.currentLeft;
    if position < v.g.startOffset as real then v.g.startOffset
    else if position > limit then TruncToInt(limit)
    else TruncToInt(position)
  }
}
