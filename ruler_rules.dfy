/**
 * The rules of the ruler that are plain computations: what the ruler reports
 * to its listeners, how it clamps the scroll offset, which tick a stopped
 * playback is carried to, and when a tap counts as a click.
 */
module RulerRules {
  import opened Wrappers
  import opened KotlinNumerics
  import opened RulerScale
  import opened TimeItems

  /** One listener callback, in the order the ruler makes them. */
  datatype Event =
    | TimeChanged(millisecond: int, item: Option<TimeItem>)           // timeListener.onTimeChanged
    | SelectedStateChanged(selected: bool, item: Option<TimeItem>)    // timeItemListener.onSelectedStateChanged
    | Added                                                           // timeItemListener.onAdd
    | Deleted                                                         // timeItemListener.onDelete
    | SizeChanged(size: int)                                          // timeItemListener.onSizeChanged
    | Clicked(index: int, target: TimeItem)                           // timeItemClickListener.onClick
    | PlayStarted                                                     // playListener.onStart
    | PlayStopped                                                     // playListener.onStop
    | PlayTimeChanged(millisecond: int, playing: TimeItem)             // playListener.onTimeChanged
    | RangeASet                                                       // rangeIndicatorListener.onSetA
    | RangeBSet                                                       // rangeIndicatorListener.onSetB
    | RangeReset                                                      // rangeIndicatorListener.onReset

  /**
   * `computeTime`'s clamp of the scroll offset: first not below 0, then not
   * beyond `maxLeft` (the view width less the screen width).
   */
  function ClampLeft(currentLeft: real, maxLeft: real): (r: real)
    ensures maxLeft >= 0.0 ==> 0.0 <= r <= maxLeft
    ensures 0.0 <= currentLeft <= maxLeft ==> r == currentLeft
    ensures r == currentLeft || r == 0.0 || r == maxLeft
    ensures maxLeft < 0.0 ==> r == maxLeft
  {
    var left := if currentLeft < 0.0 then 0.0 else currentLeft;
    if left > maxLeft then maxLeft else left
  }

  /** Clamping twice is clamping once: a clamped offset stays put. */
  lemma ClampLeftIdempotent(currentLeft: real, maxLeft: real)
    requires maxLeft >= 0.0
    ensures ClampLeft(ClampLeft(currentLeft, maxLeft), maxLeft) == ClampLeft(currentLeft, maxLeft)
  {
  }

  /**
   * The item index `onPositionChanged` looks up for a time, as written:
   * millisecond / segmentTimeInterval / 1000.  The interval is in
   * milliseconds (200), so the extra division by 1000 is one too many.
   */
  function ListenerIndexAsWritten(s: Scale, millisecond: int): int
    requires s.segmentTimeInterval > 0.0
  {
    TruncToInt(millisecond as real / s.segmentTimeInterval / 1000.0)
  }

  /** As written, every time below 200 s is looked up as item 0. */
  lemma ListenerIndexAsWrittenCollapses(s: Scale, millisecond: int)
    requires s.segmentTimeInterval == NormalSegmentTimeInterval
    requires 0 <= millisecond < 200000
    ensures ListenerIndexAsWritten(s, millisecond) == 0
  {
    var x := millisecond as real / s.segmentTimeInterval / 1000.0;
    assert millisecond as real / s.segmentTimeInterval < 1000.0;
    assert 0.0 <= x < 1.0;
  }

  /** A concrete case: the item at 400 ms is item 2, but item 0 is reported. */
  lemma ListenerIndexCounterexample(s: Scale)
    requires s.segmentTimeInterval == NormalSegmentTimeInterval
    ensures ListenerIndexAsWritten(s, 400) == 0 && ListenerIndex(400) == 2
  {
    ListenerIndexAsWrittenCollapses(s, 400);
  }

  /** The item index of a time: items sit one per 200 ms tick. */
  function ListenerIndex(millisecond: int): (i: int)
    ensures millisecond >= 0 ==> 0 <= i && i * Quantum <= millisecond < (i + 1) * Quantum
  {
    KDiv(millisecond, Quantum)
  }

  /** The time of tick k is looked up as item k. */
  lemma ListenerIndexOfTick(k: int)
    requires k >= 0
    ensures ListenerIndex(k * Quantum) == k
  {
    QuantiseAligned(k * Quantum);
  }

  /**
   * The two callbacks `onPositionChanged` makes for a settled time: the time
   * with the item on that tick, and "selected" with that item, when the list
   * reaches that far; the time alone and "not selected" otherwise.
   */
  function PositionChangedEvents(millisecond: int, timeItems: seq<TimeItem>): (es: seq<Event>)
    requires millisecond >= 0
    ensures |es| == 2 && es[0].TimeChanged? && es[1].SelectedStateChanged?
    ensures es[0].millisecond == millisecond && es[0].item == es[1].item
    ensures es[1].selected <==> ListenerIndex(millisecond) < |timeItems|
    ensures es[1].selected ==> es[1].item == Some(timeItems[ListenerIndex(millisecond)])
    ensures !es[1].selected ==> es[1].item == None
  {
    var timeIndex := ListenerIndex(millisecond);
    if timeIndex <= |timeItems| - 1 then
      [TimeChanged(millisecond, Some(timeItems[timeIndex])), SelectedStateChanged(true, Some(timeItems[timeIndex]))]
    else
      [TimeChanged(millisecond, None), SelectedStateChanged(false, None)]
  }

  /**
   * The time the player reports for tick `index`: index·1000 / ticks per
   * second.  On the normal scale (5 ticks a second) that is the tick's time.
   */
  function PlayReportTime(s: Scale, index: int): (ms: int)
    requires s.segmentTextDisplayInterval > 0
    ensures s.segmentTextDisplayInterval == 5 ==> ms == index * Quantum
  {
    TruncToInt(index as real * 1000.0 / s.segmentTextDisplayInterval as real)
  }

  /**
   * The stop condition of `fixTimeIndicatorOffset`: the position is right of
   * tick 0 and not on a tick ((position - begin) % segmentWidth > 0).
   */
  predicate OffTick(s: Scale, position: real)
    requires s.segmentWidth > 0.0
  {
    var ticks := (position - s.begin) / s.segmentWidth;
    position >= s.begin && ticks.Floor as real < ticks
  }

  /**
   * The tick a stopped animated playback is carried to, as written: the
   * rounded tick index plus one, less one when that is past the last item.
   */
  function FixTargetIndexAsWritten(s: Scale, position: real, size: int): int
    requires s.segmentWidth > 0.0
  {
    var nextTimeIndex := CalcTimeIndex(s, position, true) + 1;
    if nextTimeIndex > size - 1 then nextTimeIndex - 1 else nextTimeIndex
  }

  /**
   * The next tick after a position between two ticks, less one when that is
   * past the last item: the truncated tick index plus one.
   */
  function FixTargetIndex(s: Scale, position: real, size: int): (n: int)
    requires s.segmentWidth > 0.0 && OffTick(s, position)
    ensures n >= 0
    ensures || (n <= size - 1 && TickPosition(s, n - 1) < position < TickPosition(s, n))
            || (n >= size - 1 && TickPosition(s, n) < position < TickPosition(s, n + 1))
  {
    var nextTimeIndex := CalcTimeIndex(s, position, false) + 1;
    TruncatedTickBracket(s, position);
    if nextTimeIndex > size - 1 then nextTimeIndex - 1 else nextTimeIndex
  }

  /** A position between two ticks lies strictly between the tick of its truncated index and the next. */
  lemma TruncatedTickBracket(s: Scale, position: real)
    requires s.segmentWidth > 0.0 && OffTick(s, position)
    ensures TickPosition(s, CalcTimeIndex(s, position, false)) < position
    ensures position < TickPosition(s, CalcTimeIndex(s, position, false) + 1)
  {
    var w := s.segmentWidth;
    var ticks := (position - s.begin) / w;
    var k := CalcTimeIndex(s, position, false);
    assert k == ticks.Floor;
    assert ticks * w == position - s.begin;
    AboveScaled(s.begin, position, ticks, k as real, w);
    BelowScaled(s.begin, position, ticks, (k + 1) as real, w);
  }

  /** p - b = t·w with t < n puts p below b + n·w. */
  lemma BelowScaled(b: real, p: real, t: real, n: real, w: real)
    requires w > 0.0 && t * w == p - b && t < n
    ensures p < b + n * w
  {
    assert t * w < n * w;
  }

  /** p - b = t·w with n < t puts p above b + n·w. */
  lemma AboveScaled(b: real, p: real, t: real, n: real, w: real)
    requires w > 0.0 && t * w == p - b && n < t
    ensures b + n * w < p
  {
    assert n * w < t * w;
  }

  /**
   * As written the carried-to tick can skip a tick: a playback stopped past
   * the middle of segment k is carried to tick k + 2, over tick k + 1.
   */
  lemma FixTargetSkipsTick(s: Scale, k: int, size: int)
    requires s.segmentWidth > 0.0 && k >= 0 && size >= k + 3
    ensures var position := s.begin + (k as real + 0.75) * s.segmentWidth;
      && OffTick(s, position)
      && FixTargetIndexAsWritten(s, position, size) == k + 2
      && FixTargetIndex(s, position, size) == k + 1
      && TickPosition(s, k) < position < TickPosition(s, k + 1) < TickPosition(s, k + 2)
  {
    var position := s.begin + (k as real + 0.75) * s.segmentWidth;
    QuarterPastPosition(s, k);
    QuarterPastTick(k);
    assert OffTick(s, position);
    assert CalcTimeIndex(s, position, true) == k + 1;
    assert CalcTimeIndex(s, position, false) == k;
  }

  /** The position three quarters past tick k, in ticks and against the ticks around it. */
  lemma QuarterPastPosition(s: Scale, k: int)
    requires s.segmentWidth > 0.0 && k >= 0
    ensures var position := s.begin + (k as real + 0.75) * s.segmentWidth;
      && (position - s.begin) / s.segmentWidth == k as real + 0.75
      && s.begin <= position
      && TickPosition(s, k) < position < TickPosition(s, k + 1) < TickPosition(s, k + 2)
  {
    var w := s.segmentWidth;
    var t := k as real + 0.75;
    var position := s.begin + (k as real + 0.75) * s.segmentWidth;
    ScaledOffset(s.begin, position, k as real + 0.75, w);
    ScaledOrder(s.begin, 0.0, t, w);
    ScaledOrder(s.begin, k as real, t, w);
    ScaledOrder(s.begin, t, (k + 1) as real, w);
    ScaledOrder(s.begin, (k + 1) as real, (k + 2) as real, w);
  }

  /** Three quarters past tick k: truncated to k, rounded to k + 1, not whole. */
  lemma QuarterPastTick(k: int)
    requires k >= 0
    ensures var t := k as real + 0.75;
      TruncToInt(t) == k && RoundToInt(t) == k + 1 && t.Floor as real < t
  {
  }

  /** A point n segments right of b is n segments right of b. */
  lemma ScaledOffset(b: real, p: real, n: real, w: real)
    requires w > 0.0 && p == b + n * w
    ensures (p - b) / w == n
  {
  }

  /** Positions n segments right of b are ordered as n is. */
  lemma ScaledOrder(b: real, m: real, n: real, w: real)
    requires w > 0.0 && m < n
    ensures b + m * w < b + n * w
  {
    assert m * w < n * w;
  }

  /** The number of `onStart` callbacks in a stretch of the callback log. */
  function CountStarts(es: seq<Event>): (n: nat)
    ensures n <= |es|
  {
    if |es| == 0 then 0
    else CountStarts(es[..|es| - 1]) + (if es[|es| - 1].PlayStarted? then 1 else 0)
  }

  /** The count is zero exactly when the log holds no `onStart`, and its length exactly when it holds nothing else. */
  lemma {:induction false} CountStartsExtremes(es: seq<Event>)
    ensures CountStarts(es) == 0 <==> forall i | 0 <= i < |es| :: !es[i].PlayStarted?
    ensures CountStarts(es) == |es| <==> forall i | 0 <= i < |es| :: es[i].PlayStarted?
    decreases |es|
  {
    if |es| > 0 {
      CountStartsExtremes(es[..|es| - 1]);
    }
  }

  /** Callbacks other than `onStart` leave the count of `onStart` callbacks as it was. */
  lemma {:induction false} CountStartsWithout(es: seq<Event>, more: seq<Event>)
    requires forall i | 0 <= i < |more| :: !more[i].PlayStarted?
    ensures CountStarts(es + more) == CountStarts(es)
    decreases |more|
  {
    if |more| == 0 {
      assert es + more == es;
    } else {
      var init := more[..|more| - 1];
      assert (es + more)[..|es + more| - 1] == es + init;
      assert (es + more)[|es + more| - 1] == more[|more| - 1];
      CountStartsWithout(es, init);
    }
  }

  /** An `onStart` callback appended to a stretch of the log adds one to its count; any other callback adds none. */
  lemma CountStartsSnoc(es: seq<Event>, e: Event)
    ensures CountStarts(es + [e]) == CountStarts(es) + (if e.PlayStarted? then 1 else 0)
  {
    assert (es + [e])[..|es|] == es;
  }

  /**
   * The player keeps the play indicator at most at the screen centre: the
   * scroll offset moves right, just far enough, when the indicator has
   * passed the centre, and stays otherwise.
   */
  function FollowPlayhead(position: real, currentLeft: real, center: real): (left: real)
    ensures position - left <= center && left >= currentLeft
    ensures left == currentLeft || position - left == center
  {
    if position - currentLeft > center then currentLeft + (position - currentLeft - center) else currentLeft
  }

  /** `processTimeItemClick`'s rule: the tapped index has an item, the item is hit, and it was already the selected index. */
  predicate IsClick(timeIndex: int, size: int, touched: bool, latestTimeIndex: int)
  {
    timeIndex != -1 && timeIndex < size && touched && latestTimeIndex == timeIndex
  }

  /**
   * The timeline `addTimeItem` leaves for item t at tick k: inserted at k
   * when k is within the list, else appended after empty items up to k.
   */
  function AddedItems(ts: seq<TimeItem>, k: int, t: TimeItem): (r: seq<TimeItem>)
    requires k >= 0
    ensures |r| == (if k < |ts| then |ts| + 1 else k + 1) && r[k] == t
    ensures forall i | 0 <= i < k && i < |ts| :: r[i] == ts[i]
    ensures forall i | |ts| <= i < k :: r[i] == EmptyItem()
    ensures forall i | k < i < |r| :: r[i] == ts[i - 1]
  {
    if k < |ts| then ts[..k] + [t] + ts[k..]
    else ts + seq(k - |ts|, _ => EmptyItem()) + [t]
  }

  /** The timeline `deleteTimeItem` leaves: the item at k removed. */
  function DeletedItems(ts: seq<TimeItem>, k: int): (r: seq<TimeItem>)
    requires 0 <= k < |ts|
    ensures |r| == |ts| - 1
    ensures forall i | 0 <= i < k :: r[i] == ts[i]
    ensures forall i | k <= i < |r| :: r[i] == ts[i + 1]
  {
    ts[..k] + ts[k + 1..]
  }

  /** Deleting the item just added within the list restores the timeline. */
  lemma DeleteUndoesInsert(ts: seq<TimeItem>, k: int, t: TimeItem)
    requires 0 <= k < |ts|
    ensures DeletedItems(AddedItems(ts, k, t), k) == ts
  {
    var r := DeletedItems(AddedItems(ts, k, t), k);
    assert forall i | 0 <= i < |ts| :: r[i] == ts[i];
  }

  /** Past the end, deleting the new item leaves the old timeline padded with empty items. */
  lemma DeleteAfterAppendLeavesPadding(ts: seq<TimeItem>, k: int, t: TimeItem)
    requires |ts| <= k
    ensures DeletedItems(AddedItems(ts, k, t), k) == ts + seq(k - |ts|, _ => EmptyItem())
  {
    var r := DeletedItems(AddedItems(ts, k, t), k);
    var e := ts + seq(k - |ts|, _ => EmptyItem());
    assert forall i | 0 <= i < |e| :: r[i] == e[i];
  }

  /** The change `checkRangeIndicatorWithDelete` makes to the range. */
  datatype RangeChange = KeepRange | ClearRange | PullABack | PullBBack

  /**
   * `checkRangeIndicatorWithDelete`'s rule on ticks: `del` is the deleted
   * item's tick, `last` the last item's, `a` and `b` the markers'.
   */
  function RangeOnDelete(aVisible: bool, bVisible: bool, del: int, last: int, a: int, b: int): RangeChange
  {
    if aVisible && !bVisible then
      if del == 0 then ClearRange
      else if del == a && del == last then PullABack
      else KeepRange
    else if bVisible then
      if (del == b && a == b) || del == 0 then ClearRange
      else if a <= del <= b then PullBBack
      else KeepRange
    else KeepRange
  }

  /**
   * Pulling B back keeps the range from A to B: it holds at least one tick
   * afterwards, and on the timeline left by the delete it covers the items
   * it covered before, less the deleted one.
   */
  lemma PullBBackKeepsRange(ts: seq<TimeItem>, del: int, last: int, a: int, b: int)
    requires RangeOnDelete(true, true, del, last, a, b) == PullBBack && 0 <= a && b < |ts|
    ensures a <= b - 1
    ensures DeletedItems(ts, del)[a..b] == ts[a..del] + ts[del + 1..b + 1]
  {
    var r := DeletedItems(ts, del);
    assert forall i | 0 <= i < b - a :: r[a..b][i] == (ts[a..del] + ts[del + 1..b + 1])[i];
  }

  /**
   * A delete before A leaves a full range where it was, although every later
   * item moves one tick earlier: B then names a tick inside the shortened
   * timeline only if it was not on the last item.
   */
  lemma DeleteBeforeRangeKeepsB(ts: seq<TimeItem>, del: int, a: int, b: int)
    requires 0 < del < a <= b < |ts|
    ensures RangeOnDelete(true, true, del, |ts| - 1, a, b) == KeepRange
    ensures b < |DeletedItems(ts, del)| <==> b < |ts| - 1
  {
  }

  /** The selection `onDeleted` reports: the item now at index k, or none. */
  function SelectionAfterDelete(ts: seq<TimeItem>, k: int): (e: Event)
    ensures e.SelectedStateChanged?
    ensures e.selected <==> 0 <= k < |ts|
    ensures e.selected ==> e.item == Some(ts[k])
    ensures !e.selected ==> e.item == None
  {
    if 0 < |ts| && 0 <= k < |ts| then SelectedStateChanged(true, Some(ts[k])) else SelectedStateChanged(false, None)
  }
}
