/**
 * The coordinate system of the older, integer-position ruler.  A timeline
 * position is a whole number of pixels from tick 0.  Ticks are 100 px (200 ms)
 * apart, and full mode spreads the 600 seconds over the screen width left
 * between the two offsets.  Only the scroll offset `currentLeft` and the
 * full-mode positions are fractional.
 */
module LegacyScale {
  import opened KotlinNumerics
  import opened RulerScale

  /** Pixels between two ticks (`segmentWidth`). */
  const SegmentWidth: int := 100
  /** Seconds between two ticks (`segmentTimeInterval`). */
  const SegmentTimeInterval: real := 0.2
  /** Ticks per second, `(1 / segmentTimeInterval).toInt()`. */
  const SegmentCountOfSecond: int := 5
  /** Ticks on the ruler (`totalSegmentCount` = maxTime · ticks per second). */
  const TotalSegmentCount: int := MaxTime * SegmentCountOfSecond
  /** Width of the whole ruler in normal mode (`segmentMaxWidth`). */
  const SegmentMaxWidth: int := TotalSegmentCount * SegmentWidth
  /** Seconds per tick in full mode (`timeOfPerSegment`). */
  const TimeOfPerSegment: int := 60

  /**
   * The measurements the ruler takes from the device and its resources.  The
   * two offsets keep tick 0 and the last tick clear of the edges:
   * `segmentStartOffset` = max(circle radius, half a label) + paddingLeft, and
   * likewise at the end.  They are Floats in the source but always whole.
   */
  datatype Geometry = Geometry(screenWidth: int, paddingLeft: int, paddingRight: int, startOffset: int, endOffset: int)
  {
    predicate Valid() {
      0 <= paddingLeft <= startOffset && 0 <= paddingRight <= endOffset
      && screenWidth - startOffset - endOffset > 0
    }

    /** `segmentMaxWidthInFullMode`: the pixels full mode spreads the ruler over. */
    function FullWidth(): int { screenWidth - startOffset - endOffset }

    /** `timeOfPerPixel`: milliseconds per pixel in full mode. */
    function TimeOfPerPixel(): (tpp: real)
      requires Valid()
      ensures tpp > 0.0
      ensures tpp * FullWidth() as real == (MaxTime * 1000) as real
    {
      (MaxTime * 1000) as real / FullWidth() as real
    }

    /** `screenCenterPosition`: the middle of the width between the paddings. */
    function Center(): int { KDiv(screenWidth - paddingLeft - paddingRight, 2) }

    /** The largest scroll offset: the last tick plus its offset ends at the right screen edge. */
    function MaxLeft(): real { (SegmentMaxWidth + endOffset - screenWidth) as real }
  }

  /** `timePosition / segmentWidth`: the tick a position belongs to (truncating). */
  function TickIndex(timePosition: int): (k: int)
    ensures timePosition >= 0 ==> 0 <= k && k * SegmentWidth <= timePosition < (k + 1) * SegmentWidth
    ensures timePosition % SegmentWidth == 0 ==> k * SegmentWidth == timePosition
  {
    KDiv(timePosition, SegmentWidth)
  }

  /** A position that is exactly on a tick. */
  predicate OnTick(timePosition: int)
  {
    timePosition % SegmentWidth == 0
  }

  /** The time of tick `index` as the player reports it: index · 1000 / ticks per second. */
  function TickTime(index: int): (ms: int)
    ensures ms == index * Quantum
  {
    TruncToInt(index as real * 1000.0 / SegmentCountOfSecond as real)
  }

  /** The time `onPositionChanged` computes in normal mode: (position / segmentWidth) · 0.2 s · 1000. */
  function NormalMillisecond(timePosition: int): (ms: int)
    ensures ms == TickIndex(timePosition) * Quantum
  {
    TruncToInt(TickIndex(timePosition) as real * SegmentTimeInterval * 1000.0)
  }

  /** The time of a full-mode position, truncated to the ms and then down to the 200 ms grid. */
  function FullMillisecond(g: Geometry, fullPosition: real): (ms: int)
    requires g.Valid()
    ensures ms % Quantum == 0
    ensures fullPosition >= 0.0 ==> 0 <= ms && ms as real <= fullPosition * g.TimeOfPerPixel() < (ms + Quantum) as real
  {
    var t := TruncToInt(fullPosition * g.TimeOfPerPixel());
    KDiv(t, Quantum) * Quantum
  }

  /**
   * `convertToFullModeTimePosition`: the full-mode position of a normal-mode
   * position, through the time of its tick.
   */
  function ConvertToFullModeTimePosition(g: Geometry, timePosition: int): (p: real)
    requires g.Valid()
    ensures p * g.TimeOfPerPixel() == (TickIndex(timePosition) * Quantum) as real
    ensures timePosition >= 0 ==> p >= 0.0
  {
    var tpp := g.TimeOfPerPixel();
    var ms := TickIndex(timePosition) as real * SegmentTimeInterval * 1000.0;
    assert ms == (TickIndex(timePosition) * Quantum) as real;
    ms / tpp
  }

  /**
   * `convertToTimePosition`: the normal-mode position of a full-mode position:
   * its time in seconds times the ticks per second and the tick width, rounded.
   */
  function ConvertToTimePosition(g: Geometry, fullPosition: real): (tp: int)
    requires g.Valid()
    ensures tp as real - 0.5 <= fullPosition * g.TimeOfPerPixel() / 2.0 < tp as real + 0.5
  {
    var timeMs := fullPosition * g.TimeOfPerPixel();
    assert timeMs / 1000.0 * SegmentCountOfSecond as real * SegmentWidth as real == timeMs / 2.0;
    RoundToInt(timeMs / 1000.0 * SegmentCountOfSecond as real * SegmentWidth as real)
  }

  /** A full-mode position that converts back onto a tick. */
  predicate OnFullGrid(g: Geometry, fullPosition: real)
    requires g.Valid()
  {
    OnTick(ConvertToTimePosition(g, fullPosition))
  }

  /**
   * A full-mode position whose time is within half a millisecond of a multiple
   * of 200 ms converts back to the tick of that time.
   */
  lemma ConvertNearQuantum(g: Geometry, fullPosition: real, k: int)
    requires g.Valid()
    requires (k * Quantum) as real - 0.5 <= fullPosition * g.TimeOfPerPixel() <= (k * Quantum) as real + 0.5
    ensures ConvertToTimePosition(g, fullPosition) == k * SegmentWidth
    ensures OnFullGrid(g, fullPosition)
  {
    var tp := ConvertToTimePosition(g, fullPosition);
    var half := fullPosition * g.TimeOfPerPixel() / 2.0;
    assert (k * SegmentWidth) as real - 0.25 <= half <= (k * SegmentWidth) as real + 0.25;
    assert tp == k * SegmentWidth;
  }

  /**
   * Converting to full mode and back lands on the tick of the original
   * position, so a position on a tick survives the round trip unchanged.
   */
  lemma ConvertRoundTrip(g: Geometry, timePosition: int)
    requires g.Valid()
    ensures ConvertToTimePosition(g, ConvertToFullModeTimePosition(g, timePosition)) == TickIndex(timePosition) * SegmentWidth
    ensures OnTick(timePosition) ==> ConvertToTimePosition(g, ConvertToFullModeTimePosition(g, timePosition)) == timePosition
    ensures OnFullGrid(g, ConvertToFullModeTimePosition(g, timePosition))
  {
    ConvertNearQuantum(g, ConvertToFullModeTimePosition(g, timePosition), TickIndex(timePosition));
  }

  /** Later normal-mode positions never map to earlier full-mode positions. */
  lemma ConvertToFullMonotone(g: Geometry, p: int, q: int)
    requires g.Valid() && p <= q
    ensures ConvertToFullModeTimePosition(g, p) <= ConvertToFullModeTimePosition(g, q)
  {
    var tpp := g.TimeOfPerPixel();
    var k1, k2 := TickIndex(p), TickIndex(q);
    TickIndexMonotone(p, q);
    assert ConvertToFullModeTimePosition(g, p) == (k1 * Quantum) as real / tpp;
    assert ConvertToFullModeTimePosition(g, q) == (k2 * Quantum) as real / tpp;
    assert (k2 * Quantum) as real / tpp - (k1 * Quantum) as real / tpp == ((k2 - k1) * Quantum) as real / tpp;
  }

  /** The tick index never decreases as the position grows. */
  lemma TickIndexMonotone(p: int, q: int)
    requires p <= q
    ensures TickIndex(p) <= TickIndex(q)
  {
  }

  /**
   * `computeTime`'s clamp of the scroll offset: first not left of
   * −segmentStartOffset, then not beyond the offset that puts the end of the
   * ruler at the right screen edge.
   */
  function ClampCurrentLeft(g: Geometry, currentLeft: real): (r: real)
    ensures r <= g.MaxLeft()
    ensures -(g.startOffset as real) <= g.MaxLeft() ==> -(g.startOffset as real) <= r
    ensures -(g.startOffset as real) <= currentLeft <= g.MaxLeft() ==> r == currentLeft
    ensures r == currentLeft || r == -(g.startOffset as real) || r == g.MaxLeft()
  {
    var left := if currentLeft < -(g.startOffset as real) then -(g.startOffset as real) else currentLeft;
    if left + g.screenWidth as real > (TotalSegmentCount * SegmentWidth + g.endOffset) as real
    then (TotalSegmentCount * SegmentWidth + g.endOffset) as real - g.screenWidth as real
    else left
  }

  /** Clamping an offset that is already clamped changes nothing. */
  lemma ClampCurrentLeftIdempotent(g: Geometry, currentLeft: real)
    requires -(g.startOffset as real) <= g.MaxLeft()
    ensures ClampCurrentLeft(g, ClampCurrentLeft(g, currentLeft)) == ClampCurrentLeft(g, currentLeft)
  {
  }

  /** `currentLeftIndex`: the tick at the left screen edge, `currentLeft.toInt() / segmentWidth`. */
  function CurrentLeftIndex(currentLeft: real): (k: int)
    ensures currentLeft >= 0.0 ==> 0 <= k && (k * SegmentWidth) as real <= currentLeft
    ensures currentLeft >= 0.0 ==> currentLeft < ((k + 1) * SegmentWidth) as real
  {
    TickIndex(TruncToInt(currentLeft))
  }

  /**
   * The number `formatPosToTimeText` prints for a tick label: in normal mode
   * the whole seconds of tick `position` (`(position · 0.2).toInt()`), in full
   * mode `position` minutes in seconds.
   */
  function LabelSeconds(position: int, fullMode: bool): (s: int)
    ensures !fullMode && position >= 0 ==> 0 <= s && s * SegmentCountOfSecond <= position < (s + 1) * SegmentCountOfSecond
    ensures fullMode ==> s == position * TimeOfPerSegment
  {
    if !fullMode then TruncToInt(position as real * SegmentTimeInterval) else position * TimeOfPerSegment
  }

  /** `formatPosToTimeText`: the label of a tick, its seconds followed by "s". */
  function FormatPosToTimeText(position: int, fullMode: bool): (text: string)
    ensures |text| >= 2 && text[|text| - 1] == 's'
    ensures ParseInt(text[..|text| - 1]) == LabelSeconds(position, fullMode)
  {
    var seconds := LabelSeconds(position, fullMode);
    IntToStringRoundTrip(seconds);
    IntToString(seconds) + "s"
  }

  /** Kotlin's decimal rendering of an `Int`: a minus sign for negatives, no leading zeros. */
  function IntToString(n: int): (text: string)
    ensures |text| >= 1
  {
    if n < 0 then "-" + NatToString(-n) else NatToString(n)
  }

  function NatToString(n: nat): (text: string)
    ensures |text| >= 1
    ensures forall i :: 0 <= i < |text| ==> '0' <= text[i] <= '9'
    decreases n
  {
    if n < 10 then [Digit(n)] else NatToString(n / 10) + [Digit(n % 10)]
  }

  function Digit(d: int): (c: char)
    requires 0 <= d < 10
    ensures '0' <= c <= '9' && c as int - '0' as int == d
  {
    ('0' as int + d) as char
  }

  /** Reads back a decimal string of digits, with an optional leading minus sign. */
  function ParseInt(text: string): int
  {
    if |text| > 0 && text[0] == '-' then -ParseNat(text[1..]) else ParseNat(text)
  }

  function ParseNat(text: string): int
  {
    if |text| == 0 then 0 else ParseNat(text[..|text| - 1]) * 10 + (text[|text| - 1] as int - '0' as int)
  }

  /** Printing a number and reading it back gives the number. */
  lemma IntToStringRoundTrip(n: int)
    ensures ParseInt(IntToString(n)) == n
  {
    if n < 0 {
      var digits := NatToString(-n);
      NatToStringRoundTrip(-n);
      assert ("-" + digits)[1..] == digits;
    } else {
      NatToStringRoundTrip(n);
      assert NatToString(n)[0] != '-';
    }
  }

  lemma {:induction false} NatToStringRoundTrip(n: nat)
    ensures ParseNat(NatToString(n)) == n
    decreases n
  {
    if n >= 10 {
      var text := NatToString(n);
      NatToStringRoundTrip(n / 10);
      assert text[..|text| - 1] == NatToString(n / 10);
    }
  }
}
