/**
 * The ruler's coordinate system: how pixels on the timeline, milliseconds and
 * tick indices correspond, in normal mode (a 600-second ruler of 3000 ticks of
 * 200 ms, 100 px per tick) and in full mode (the same 600 seconds squeezed into
 * the screen width, 10 ticks of one minute).  Positions are "real" positions on
 * the whole timeline, not screen positions.
 */
module RulerScale {
  import opened KotlinNumerics

  /** Length of the ruler in seconds (`maxTime`). */
  const MaxTime: int := 600
  /** Every time the ruler reports is a multiple of this many milliseconds. */
  const Quantum: int := 200
  /** Pixels per tick in normal mode. */
  const NormalSegmentWidth: real := 100.0
  /** Milliseconds per tick in normal mode. */
  const NormalSegmentTimeInterval: real := 200.0
  /** Number of ticks in full mode. */
  const FullSegmentCount: int := 10

  /** The view's measurements, taken as given (screen width and paddings, in pixels). */
  datatype Layout = Layout(screenWidth: int, paddingLeft: int, paddingRight: int)
  {
    /** The width the ruler occupies in full mode. */
    function FullWidth(): real { (screenWidth - paddingLeft - paddingRight) as real }
    /** The layout admits full mode: something is left between the paddings. */
    predicate FitsFullMode() { FullWidth() > 0.0 }
  }

  /** The scale attributes of one mode. */
  datatype Scale = Scale(
    begin: real,                     // segmentBeginPosition: where tick 0 sits
    segmentWidth: real,              // pixels per tick
    segmentTimeInterval: real,       // milliseconds per tick
    timeOfPerPixel: real,            // milliseconds per pixel
    totalSegmentCount: int,          // ticks on the ruler (the last tick is totalSegmentCount)
    segmentTextDisplayInterval: int, // ticks between labels
    endOffset: real)                 // padding after the last tick
  {
    predicate Valid() {
      begin >= 0.0 && segmentWidth > 0.0 && timeOfPerPixel > 0.0 && segmentTimeInterval > 0.0
      && totalSegmentCount > 0 && segmentTextDisplayInterval > 0 && endOffset >= 0.0
    }
    /** Width of the whole scrollable view. */
    function ViewWidth(): real { begin + totalSegmentCount as real * segmentWidth + endOffset }
    /** The rightmost real position a marker may take: the last tick. */
    function LastPosition(): real { ViewWidth() - endOffset }
  }

  /**
   * The scale attributes the ruler derives for a mode (`initTimeAttrs` followed
   * by the part of `initPositionAttrs` that fixes segmentBeginPosition).
   */
  function InitScale(layout: Layout, fullMode: bool): (s: Scale)
    requires layout.paddingLeft >= 0 && layout.paddingRight >= 0
    requires fullMode ==> layout.FitsFullMode()
    ensures s.Valid()
    ensures s.totalSegmentCount as real * s.segmentTimeInterval == (MaxTime * 1000) as real
    ensures s.segmentWidth * s.timeOfPerPixel == s.segmentTimeInterval
    ensures !fullMode ==> s.segmentWidth == 100.0 && s.timeOfPerPixel == 2.0 && s.totalSegmentCount == 3000
    ensures fullMode ==> s.totalSegmentCount == 10 && s.totalSegmentCount as real * s.segmentWidth == layout.FullWidth()
  {
    var maxMs := (MaxTime * 1000) as real;
    if !fullMode then
      var total := TruncToInt(maxMs / NormalSegmentTimeInterval);
      var segmentMaxWidth := total as real * NormalSegmentWidth;
      Scale(layout.paddingLeft as real, NormalSegmentWidth, NormalSegmentTimeInterval,
            maxMs / segmentMaxWidth, total, 5, layout.paddingRight as real)
    else
      var segmentMaxWidth := layout.FullWidth();
      var width := segmentMaxWidth / FullSegmentCount as real;
      var tpp := maxMs / segmentMaxWidth;
      assert width * tpp == 60000.0;
      Scale(layout.paddingLeft as real, width, 60000.0, tpp, FullSegmentCount, 2, layout.paddingRight as real)
  }

  /** The exact time, in ms, elapsed between tick 0 and a real position. */
  function Elapsed(s: Scale, realPosition: real): real
  {
    (realPosition - s.begin) * s.timeOfPerPixel
  }

  /** The elapsed time as a whole number of ms: rounded or truncated, as the caller asks. */
  function WholeElapsed(s: Scale, realPosition: real, isRound: bool): int
  {
    if isRound then RoundToInt(Elapsed(s, realPosition)) else TruncToInt(Elapsed(s, realPosition))
  }

  /** `calcTimeMillisecond(realPosition, isRound)`: elapsed ms quantised down to 200 ms. */
  function CalcTimeMillisecond(s: Scale, realPosition: real, isRound: bool): (ms: int)
    ensures ms % Quantum == 0
    ensures realPosition >= s.begin && s.timeOfPerPixel > 0.0 ==>
      0 <= ms && ms as real <= Elapsed(s, realPosition) + (if isRound then 0.5 else 0.0)
      && Elapsed(s, realPosition) < ms as real + Quantum as real + (if isRound then 0.5 else 0.0)
  {
    ElapsedNonnegative(s, realPosition);
    KDiv(WholeElapsed(s, realPosition, isRound), Quantum) * Quantum
  }

  lemma ElapsedNonnegative(s: Scale, p: real)
    ensures p >= s.begin && s.timeOfPerPixel > 0.0 ==> Elapsed(s, p) >= 0.0
  {
  }

  /** A position whose exact elapsed time is a whole number of ms is quantised from that number. */
  lemma CalcOfWholeMilliseconds(s: Scale, p: real, isRound: bool, w: int)
    requires Elapsed(s, p) == w as real
    ensures CalcTimeMillisecond(s, p, isRound) == KDiv(w, Quantum) * Quantum
  {
    WholeNumbersFixed(w);
  }

  /** Quantising an aligned whole number of milliseconds leaves it unchanged. */
  lemma QuantiseAligned(t: int)
    requires t % Quantum == 0
    ensures KDiv(t, Quantum) * Quantum == t
  {
  }

  /** `calcPosition(time)`: the real position at which a time is drawn. */
  function CalcPosition(s: Scale, time: int): (p: real)
    requires s.timeOfPerPixel > 0.0
    ensures Elapsed(s, p) == time as real
    ensures time >= 0 ==> p >= s.begin
  {
    time as real / s.timeOfPerPixel + s.begin
  }

  /** `calcTimeIndex(realPosition, isRound)`: the tick a position belongs to. */
  function CalcTimeIndex(s: Scale, realPosition: real, isRound: bool): (i: int)
    requires s.segmentWidth > 0.0
    ensures 0 <= i
    ensures realPosition < s.begin ==> i == 0
    ensures realPosition >= s.begin && !isRound ==>
      i as real <= (realPosition - s.begin) / s.segmentWidth < i as real + 1.0
    ensures realPosition >= s.begin && isRound ==>
      i as real - 0.5 <= (realPosition - s.begin) / s.segmentWidth < i as real + 0.5
  {
    if realPosition < s.begin then 0
    else
      var ticks := (realPosition - s.begin) / s.segmentWidth;
      if isRound then RoundToInt(ticks) else TruncToInt(ticks)
  }

  /** `isFull()`: every tick 0..totalSegmentCount already holds an item. */
  predicate IsFull(s: Scale, size: int)
  {
    size == s.totalSegmentCount + 1
  }

  /** The real position of tick `k`. */
  function TickPosition(s: Scale, k: int): real
  {
    s.begin + k as real * s.segmentWidth
  }

  /**
   * The snap `TimeIndicator.updatePosition` applies to a rounded time: a remainder
   * above 100 ms goes up to the next 200 ms step, any other remainder goes down.
   */
  function SnapTime(ct: int): (t: int)
    ensures ct >= 0 ==> t >= 0 && t % Quantum == 0 && t - 100 < ct <= t + 100
  {
    var remainTime := KRem(ct, Quantum);
    if remainTime > 0 then
      var indexOffset := if remainTime > 100 then 1 else 0;
      (KDiv(ct, Quantum) + indexOffset) * Quantum
    else ct
  }

  // ---------------------------------------------------------------- lemmas

  /** calcPosition is undone by calcTimeMillisecond on 200-aligned times, with either rounding. */
  lemma CalcRoundTrip(s: Scale, time: int, isRound: bool)
    requires s.timeOfPerPixel > 0.0 && time % Quantum == 0
    ensures CalcTimeMillisecond(s, CalcPosition(s, time), isRound) == time
  {
    var p := CalcPosition(s, time);
    CalcOfWholeMilliseconds(s, p, isRound, time);
    QuantiseAligned(time);
  }

  /**
   * The other direction: the position of the truncated time lies at most one
   * quantum's worth of pixels to the left of the position it came from.
   */
  lemma CalcPositionBelow(s: Scale, p: real)
    requires s.timeOfPerPixel > 0.0 && p >= s.begin
    ensures CalcPosition(s, CalcTimeMillisecond(s, p, false)) <= p
    ensures p < CalcPosition(s, CalcTimeMillisecond(s, p, false)) + Quantum as real / s.timeOfPerPixel
  {
    var ms := CalcTimeMillisecond(s, p, false);
    var q := CalcPosition(s, ms);
    var tpp := s.timeOfPerPixel;
    var eq, ep := Elapsed(s, q), Elapsed(s, p);
    assert eq == ms as real;
    assert ms as real <= ep < ms as real + Quantum as real;
    MonotoneByPositiveFactor(q - s.begin, p - s.begin, tpp);
    var w := Quantum as real / tpp;
    assert w * tpp == Quantum as real;
    assert (q + w - s.begin) * tpp == eq + w * tpp;
    StrictByPositiveFactor(p - s.begin, q + w - s.begin, tpp);
  }

  lemma MonotoneByPositiveFactor(a: real, b: real, c: real)
    requires c > 0.0 && a * c <= b * c
    ensures a <= b
  {
  }

  lemma StrictByPositiveFactor(a: real, b: real, c: real)
    requires c > 0.0 && a * c < b * c
    ensures a < b
  {
  }

  /** The truncating tick index never exceeds the rounding one, which is at most one more. */
  lemma IndexRoundingOrder(s: Scale, p: real)
    requires s.segmentWidth > 0.0
    ensures CalcTimeIndex(s, p, false) <= CalcTimeIndex(s, p, true) <= CalcTimeIndex(s, p, false) + 1
  {
    if p >= s.begin {
      TruncBelowRound((p - s.begin) / s.segmentWidth);
    }
  }

  /** Positions further right belong to the same or a later tick. */
  lemma CalcTimeIndexMonotone(s: Scale, p: real, q: real, isRound: bool)
    requires s.segmentWidth > 0.0 && p <= q
    ensures CalcTimeIndex(s, p, isRound) <= CalcTimeIndex(s, q, isRound)
  {
    if p >= s.begin {
      var a, b := (p - s.begin) / s.segmentWidth, (q - s.begin) / s.segmentWidth;
      assert a * s.segmentWidth <= b * s.segmentWidth;
      MonotoneByPositiveFactor(a, b, s.segmentWidth);
      ConversionsMonotone(a, b);
    }
  }

  /** One segment right of a position is one tick further on the (fractional) tick scale, one segment left one tick less. */
  lemma TicksShifted(s: Scale, p: real)
    requires s.segmentWidth > 0.0
    ensures (p + s.segmentWidth - s.begin) / s.segmentWidth == (p - s.begin) / s.segmentWidth + 1.0
    ensures (p - s.segmentWidth - s.begin) / s.segmentWidth == (p - s.begin) / s.segmentWidth - 1.0
  {
    var w := s.segmentWidth;
    DivideShifted(p - s.begin, w, w);
    DivideShifted(p - s.begin, -w, w);
    assert w / w == 1.0 && (-w) / w == -1.0;
    assert p + w - s.begin == p - s.begin + w && p - w - s.begin == p - s.begin + -w;
  }

  /** Shifting a position one segment right raises its tick by at most one. */
  lemma TimeIndexAfterShiftRight(s: Scale, p: real, isRound: bool)
    requires s.segmentWidth > 0.0
    ensures CalcTimeIndex(s, p + s.segmentWidth, isRound) <= CalcTimeIndex(s, p, isRound) + 1
  {
    TicksShifted(s, p);
    if p >= s.begin {
      ConversionsShiftByOne((p - s.begin) / s.segmentWidth);
    }
  }

  /** Shifting a position one segment left lowers its tick by one, or leaves it at tick 0. */
  lemma TimeIndexAfterShiftLeft(s: Scale, p: real, isRound: bool)
    requires s.segmentWidth > 0.0
    ensures CalcTimeIndex(s, p - s.segmentWidth, isRound)
            == (if CalcTimeIndex(s, p, isRound) == 0 then 0 else CalcTimeIndex(s, p, isRound) - 1)
  {
    TicksShifted(s, p);
    if p - s.segmentWidth >= s.begin {
      ConversionsShiftByOne((p - s.segmentWidth - s.begin) / s.segmentWidth);
    }
  }

  /** Tick k + 1 lies one segment width after tick k. */
  lemma NextTick(b: real, n: real, w: real)
    ensures b + (n + 1.0) * w == b + n * w + w
  {
  }

  /** A tick's own position belongs to that tick, whichever rounding is asked for. */
  lemma TickIndexOfTickPosition(s: Scale, k: int, isRound: bool)
    requires s.segmentWidth > 0.0 && k >= 0
    ensures CalcTimeIndex(s, TickPosition(s, k), isRound) == k
  {
    var p := TickPosition(s, k);
    assert (p - s.begin) / s.segmentWidth == k as real;
    WholeNumbersFixed(k);
  }

  /** Tick `k` is drawn at the time k·segmentTimeInterval, and that time maps back to tick `k`. */
  lemma TickTimeCorrespondence(s: Scale, k: int)
    requires s.Valid() && s.segmentWidth * s.timeOfPerPixel == s.segmentTimeInterval
    requires k >= 0 && s.segmentTimeInterval == NormalSegmentTimeInterval
    ensures CalcTimeMillisecond(s, TickPosition(s, k), false) == k * Quantum
    ensures CalcPosition(s, k * Quantum) == TickPosition(s, k)
  {
    var p := TickPosition(s, k);
    assert (p - s.begin) * s.timeOfPerPixel == k as real * (s.segmentWidth * s.timeOfPerPixel);
    CalcOfWholeMilliseconds(s, p, false, k * Quantum);
    QuantiseAligned(k * Quantum);
    var q := CalcPosition(s, k * Quantum);
    assert (q - s.begin) * s.timeOfPerPixel == (p - s.begin) * s.timeOfPerPixel;
    EqualByPositiveFactor(q - s.begin, p - s.begin, s.timeOfPerPixel);
  }

  /** Later times are drawn further right. */
  lemma CalcPositionMonotone(s: Scale, t1: int, t2: int)
    requires s.timeOfPerPixel > 0.0 && t1 <= t2
    ensures CalcPosition(s, t1) <= CalcPosition(s, t2)
  {
    var p1, p2 := CalcPosition(s, t1), CalcPosition(s, t2);
    assert Elapsed(s, p1) <= Elapsed(s, p2);
    MonotoneByPositiveFactor(p1 - s.begin, p2 - s.begin, s.timeOfPerPixel);
  }

  lemma DivideShifted(x: real, d: real, w: real)
    requires w > 0.0
    ensures (x + d) / w == x / w + d / w
  {
  }

  lemma EqualByPositiveFactor(a: real, b: real, c: real)
    requires c > 0.0 && a * c == b * c
    ensures a == b
  {
  }

  /** Snapping an aligned time changes nothing, so snapping twice is snapping once. */
  lemma SnapIdempotent(ct: int)
    requires ct >= 0
    ensures SnapTime(ct) == ct <==> ct % Quantum == 0
    ensures SnapTime(SnapTime(ct)) == SnapTime(ct)
  {
  }

  /** Snapping preserves order. */
  lemma SnapMonotone(x: int, y: int)
    requires 0 <= x <= y
    ensures SnapTime(x) <= SnapTime(y)
  {
  }

  /** The converse of `CalcPositionMonotone`: positions in order come from times in order. */
  lemma CalcPositionOrder(s: Scale, t1: int, t2: int)
    requires s.timeOfPerPixel > 0.0 && CalcPosition(s, t1) <= CalcPosition(s, t2)
    ensures t1 <= t2
  {
    var p1, p2 := CalcPosition(s, t1), CalcPosition(s, t2);
    OrderFromProducts(p1 - s.begin, p2 - s.begin, s.timeOfPerPixel, t1, t2);
  }

  lemma OrderFromProducts(x: real, y: real, c: real, t1: int, t2: int)
    requires c > 0.0 && x <= y && x * c == t1 as real && y * c == t2 as real
    ensures t1 <= t2
  {
    ScaleByPositiveFactor(x, y, c);
  }

  lemma ScaleByPositiveFactor(a: real, b: real, c: real)
    requires c > 0.0 && a <= b
    ensures a * c <= b * c
  {
    assert b * c - a * c == (b - a) * c;
  }

  /** Tick 0 is time 0. */
  lemma ElapsedAtBegin(s: Scale)
    ensures Elapsed(s, s.begin) == 0.0
  {
    assert s.begin - s.begin == 0.0;
  }
}
