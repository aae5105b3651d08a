/**
 * The playhead ("time indicator"): a marker that sits on a tick of the ruler.
 * Moving it clamps the requested position to the ruler, snaps the time to the
 * 200 ms grid and tells the ruler only when the snapped time changed.  It
 * remembers its time so that a switch between normal and full mode can put it
 * back on the same time under the new scale.
 */
module TimeIndicators {
  import opened KotlinNumerics
  import opened RulerScale

  /** What an indicator reads from its ruler: the scale, the scroll offset and the mode. */
  datatype Viewport = Viewport(scale: Scale, currentLeft: real, fullMode: bool)
  {
    predicate Valid() { scale.Valid() }
  }

  /**
   * `checkAndFixToRealPosition`: the screen position converted to a real position
   * and clamped to the ruler, from tick 0 to the last tick.
   */
  function CheckAndFixToRealPosition(v: Viewport, position: real): (r: real)
    requires v.Valid()
    ensures v.scale.begin <= r <= v.scale.LastPosition()
    ensures r == v.currentLeft + position
         || (r == v.scale.begin && v.currentLeft + position < r)
         || (r == v.scale.LastPosition() && v.currentLeft + position > r)
  {
    var realPosition := v.currentLeft + position;
    if realPosition < v.scale.begin then v.scale.begin
    else if realPosition > v.scale.ViewWidth() - v.scale.endOffset then v.scale.ViewWidth() - v.scale.endOffset
    else realPosition
  }

  /** The time `updatePosition` settles on for a screen position: clamp, round, snap to 200 ms. */
  function SnappedTime(v: Viewport, position: real): (t: int)
    requires v.Valid()
    ensures t >= 0 && t % Quantum == 0
    ensures var exact := Elapsed(v.scale, CheckAndFixToRealPosition(v, position));
      t as real - 100.5 <= exact < t as real + 100.5
  {
    var fixed := CheckAndFixToRealPosition(v, position);
    ElapsedNonnegative(v.scale, fixed);
    SnapTime(RoundToInt(Elapsed(v.scale, fixed)))
  }

  class TimeIndicator {
    /** Position on the whole timeline. */
    var realPosition: real
    /** Position on the screen. */
    var currentPosition: real
    /** The time last settled on, in ms. */
    var time: int
    /** The time last reported to the ruler, in ms. */
    var oldMillisecond: int
    var isVisible: bool
    var isDragging: bool

    /** The cached time is always on the 200 ms grid. */
    ghost predicate Valid()
      reads this`time
    {
      time % Quantum == 0
    }

    /** The indicator sits exactly on the position of its (non-negative) cached time. */
    ghost predicate Settled(s: Scale)
      reads this`realPosition, this`time
    {
      s.timeOfPerPixel > 0.0 && time >= 0 && realPosition == CalcPosition(s, time)
    }

    /** A new indicator sits on tick 0 and is shown. */
    constructor (s: Scale)
      ensures Valid()
      ensures realPosition == s.begin && currentPosition == 0.0 && time == 0 && oldMillisecond == 0
      ensures isVisible && !isDragging
    {
      realPosition := s.begin;
      currentPosition := 0.0;
      time := 0;
      oldMillisecond := 0;
      isVisible := true;
      isDragging := false;
    }

    /** `getTime(isRound)`: the time of the current real position, on the 200 ms grid. */
    function GetTime(s: Scale, isRound: bool): (t: int)
      reads this`realPosition
      ensures t % Quantum == 0
      ensures realPosition >= s.begin && s.timeOfPerPixel > 0.0 ==> t >= 0
    {
      CalcTimeMillisecond(s, realPosition, isRound)
    }

    /**
     * `updatePosition`: settle on the tick nearest to a screen position.  Returns
     * whether the ruler was told (`onPositionChanged`), which happens exactly when
     * the settled time differs from the one last reported.
     */
    method UpdatePosition(v: Viewport, position: real) returns (notified: bool)
      requires v.Valid()
      modifies this`realPosition, this`currentPosition, this`time, this`oldMillisecond
      ensures Valid()
      ensures time == SnappedTime(v, position)
      ensures realPosition == CalcPosition(v.scale, time)
      ensures currentPosition == realPosition - v.currentLeft
      ensures notified <==> old(oldMillisecond) != time
      ensures oldMillisecond == time
    {
      var tpp := v.scale.timeOfPerPixel;
      var fixedPosition := CheckAndFixToRealPosition(v, position);
      var timePosition := fixedPosition - v.scale.begin;
      var currentTime := RoundToInt(timePosition * tpp);
      assert currentTime == RoundToInt(Elapsed(v.scale, fixedPosition));
      ElapsedNonnegative(v.scale, fixedPosition);
      var remainTime := KRem(currentTime, Quantum);
      if remainTime > 0 {
        var indexOffset := if remainTime > 100 then 1 else 0;
        var target := (KDiv(currentTime, Quantum) + indexOffset) * Quantum;
        timePosition := target as real / tpp;
        assert timePosition * tpp == target as real;
        WholeNumbersFixed(target);
        currentTime := RoundToInt(timePosition * tpp);
      }
      realPosition := currentTime as real / tpp + v.scale.begin;
      time := currentTime;
      currentPosition := realPosition - v.currentLeft;
      notified := oldMillisecond != currentTime;
      if notified {
        oldMillisecond := currentTime;
      }
    }

    /**
     * `moveTo`: follow a drag.  In normal mode only the screen position moves; in
     * full mode the real position follows too, and the time is the truncated,
     * quantised time of the raw screen position, reported only when it changed.
     */
    method MoveTo(v: Viewport, position: real) returns (notified: bool)
      requires v.Valid() && Valid()
      modifies this`realPosition, this`currentPosition, this`time, this`oldMillisecond
      ensures Valid()
      ensures currentPosition == CheckAndFixToRealPosition(v, position) - v.currentLeft
      ensures !v.fullMode ==>
        (!notified && realPosition == old(realPosition) && time == old(time)
         && oldMillisecond == old(oldMillisecond))
      ensures v.fullMode ==>
        (realPosition == CheckAndFixToRealPosition(v, position)
         && time == KDiv(TruncToInt(position * v.scale.timeOfPerPixel), Quantum) * Quantum
         && (notified <==> old(oldMillisecond) != time) && oldMillisecond == time)
    {
      var fixPosition := CheckAndFixToRealPosition(v, position);
      notified := false;
      if v.fullMode {
        realPosition := fixPosition;
        var millisecond := KDiv(TruncToInt(position * v.scale.timeOfPerPixel), Quantum) * Quantum;
        if oldMillisecond != millisecond {
          oldMillisecond := millisecond;
          notified := true;
        }
        time := millisecond;
      }
      currentPosition := fixPosition - v.currentLeft;
    }

    /** `setRealPosition`: jump to a real position and cache its rounded time. */
    method SetRealPosition(s: Scale, position: real)
      modifies this`realPosition, this`time
      ensures Valid()
      ensures realPosition == position && time == GetTime(s, true)
      ensures position >= s.begin && s.timeOfPerPixel > 0.0 ==> time >= 0
    {
      realPosition := position;
      time := GetTime(s, true);
    }

    /**
     * `refreshPosition`: re-derive the real position from the cached time under a
     * (possibly new) scale.  The logical time is kept: reading it back under that
     * scale, rounded or truncated, gives the cached time.
     */
    method RefreshPosition(s: Scale)
      requires Valid() && s.timeOfPerPixel > 0.0
      modifies this`realPosition
      ensures realPosition == CalcPosition(s, time)
      ensures GetTime(s, true) == time && GetTime(s, false) == time
    {
      realPosition := time as real / s.timeOfPerPixel + s.begin;
      CalcRoundTrip(s, time, true);
      CalcRoundTrip(s, time, false);
    }

    /** `reset`: settle at screen position 0, then force tick 0. */
    method Reset(v: Viewport) returns (notified: bool)
      requires v.Valid()
      modifies this`realPosition, this`currentPosition, this`time, this`oldMillisecond
      ensures Valid()
      ensures realPosition == v.scale.begin && time == 0
      ensures oldMillisecond == SnappedTime(v, 0.0)
      ensures notified <==> old(oldMillisecond) != SnappedTime(v, 0.0)
      ensures currentPosition == CalcPosition(v.scale, SnappedTime(v, 0.0)) - v.currentLeft
    {
      notified := UpdatePosition(v, 0.0);
      realPosition := v.scale.begin;
      time := 0;
    }
  }

  // ---------------------------------------------------------------- lemmas

  /** Clamping is idempotent: a clamped position, seen from the screen again, stays put. */
  lemma CheckAndFixIdempotent(v: Viewport, position: real)
    requires v.Valid()
    ensures var r := CheckAndFixToRealPosition(v, position);
      CheckAndFixToRealPosition(v, r - v.currentLeft) == r
  {
  }

  /** Clamping preserves order. */
  lemma CheckAndFixMonotone(v: Viewport, x: real, y: real)
    requires v.Valid() && x <= y
    ensures CheckAndFixToRealPosition(v, x) <= CheckAndFixToRealPosition(v, y)
  {
  }

  /**
   * A tick is a fixed point of the snap: asking for the screen position of an
   * aligned time on the ruler settles on that very time.  So once the playhead
   * has settled, updating it again at its own position reports nothing.
   */
  lemma SnapFixedPoint(v: Viewport, t: int)
    requires v.Valid() && t >= 0 && t % Quantum == 0
    requires CalcPosition(v.scale, t) <= v.scale.LastPosition()
    ensures SnappedTime(v, CalcPosition(v.scale, t) - v.currentLeft) == t
  {
    var p := CalcPosition(v.scale, t);
    assert CheckAndFixToRealPosition(v, p - v.currentLeft) == p;
    assert Elapsed(v.scale, p) == t as real;
    WholeNumbersFixed(t);
    SnapIdempotent(t);
  }

  /** The settled time never decreases as the requested position moves right. */
  lemma SnappedTimeMonotone(v: Viewport, x: real, y: real)
    requires v.Valid() && x <= y
    ensures SnappedTime(v, x) <= SnappedTime(v, y)
  {
    var fx, fy := CheckAndFixToRealPosition(v, x), CheckAndFixToRealPosition(v, y);
    CheckAndFixMonotone(v, x, y);
    ElapsedNonnegative(v.scale, fx);
    assert Elapsed(v.scale, fx) <= Elapsed(v.scale, fy) by {
      assert fy - fx >= 0.0;
      assert Elapsed(v.scale, fy) - Elapsed(v.scale, fx) == (fy - fx) * v.scale.timeOfPerPixel;
      NonnegativeProduct(fy - fx, v.scale.timeOfPerPixel);
    }
    ConversionsMonotone(Elapsed(v.scale, fx), Elapsed(v.scale, fy));
    SnapMonotone(RoundToInt(Elapsed(v.scale, fx)), RoundToInt(Elapsed(v.scale, fy)));
  }

  lemma NonnegativeProduct(a: real, b: real)
    requires a >= 0.0 && b >= 0.0
    ensures a * b >= 0.0
  {
  }

  /**
   * A mode switch keeps the playhead's time: from a settled time, refreshing
   * under another scale and reading the time back gives the same time, and
   * switching back restores the original real position.
   */
  lemma ModeSwitchRoundTrip(normal: Scale, full: Scale, t: int)
    requires normal.timeOfPerPixel > 0.0 && full.timeOfPerPixel > 0.0 && t % Quantum == 0
    ensures CalcTimeMillisecond(full, CalcPosition(full, t), true) == t
    ensures CalcPosition(normal, CalcTimeMillisecond(full, CalcPosition(full, t), true)) == CalcPosition(normal, t)
  {
    CalcRoundTrip(full, t, true);
  }
  /** At scroll offset 0, screen position 0 settles on tick 0, time 0. */
  lemma SnapAtRulerStart(v: Viewport)
    requires v.Valid() && v.currentLeft == 0.0
    ensures SnappedTime(v, 0.0) == 0
  {
    assert CheckAndFixToRealPosition(v, 0.0) == v.scale.begin;
    ElapsedAtBegin(v.scale);
    WholeNumbersFixed(0);
  }
}
