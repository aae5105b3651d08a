# TimeRuler — a verified Dafny model

TimeRuler is an Android widget that shows a horizontal timeline. The timeline is ten
minutes long and divided into 200 ms ticks. Time items sit on the ticks as circles. A
playhead (the time indicator) marks the current time. An A–B range selector marks a
span of items to play. A stepped player moves the playhead one tick per timer message.
A full mode compresses the whole ten minutes onto one screen.

The repository holds two versions of the widget, and both are modelled:

- `com.cxj.timeruler` (the `src` tree). Positions are floats. They are modelled as exact
  `real` numbers, and Kotlin's `toInt`, `roundToInt`, integer `/` and `%` are written out in
  `KotlinNumerics`. The modules are:
  - `RulerScale`: pixel/millisecond/tick conversions and scroll clamping;
  - `RulerRules`: the pure rules of the ruler, such as which tick a stopped playback is
    carried to and which item a time names;
  - `TimeIndicators`, `CircleIndicators`, `RangeIndicators`: the three indicator classes;
  - `TimeRulers`: the ruler class, covering the item list, range upkeep, taps and
    playback in both modes.
- `com.thirtydays.timeruler` (the `srcbak` tree). Positions are integers. The modules are:
  - `LegacyScale`: integer tick arithmetic and the full-mode conversions;
  - `LegacyTimeIndicators`, `LegacyCircleIndicators`, `LegacyRangeIndicators`: the
    indicators;
  - `LegacyTimeRulers`: the ruler;
  - `TimeItems`: the `TimeItem` data class.

Each Kotlin class whose fields change becomes a Dafny `class`, with the same fields.
Each such class has a `Valid()` invariant. Its central clause is "item *i* sits at tick *i*"
whenever no add or delete is in flight. Each method's contract says what it changes. Where a top-level operation hands its work to helpers, its own contract gives the guards and the outcome. `AddTimeItem`, for example, states its guards and the resulting timeline. The helpers' contracts give the rest. `AddAppended` states the playhead step, `AddInserted` the growth of the range, and `FinishShow` the callbacks.

The listeners (`onStart`, `onStop`, `onPositionChanged`, `onDelete`, `onSizeChanged`, ...)
are not called. Instead, each call is appended to an `events` log on the ruler, and
contracts say which events a call appends, and in what order.

Animations, `Handler` messages and `post` callbacks do not follow a clock. Each one
becomes a method that the environment calls when it completes, for example:

- `FinishShow` and `FinishDelete` for the show and delete animations;
- `PlayTick` for one timer message;
- `SettleOnFixTarget` for the corrective animation.

The state left between a start and its completion is held in explicit pending fields.

Screen size, offsets and paddings are constructor parameters.

## Model

| member | source | states |
|---|---|---|
| KotlinNumerics.TruncToInt | timeruler/src/main/java/com/cxj/timeruler/TimeRuler.kt:1352 | Kotlin `toInt()` on a float: the whole number toward zero, bracketed from below for non-negative and from above for negative values |
| KotlinNumerics.RoundToInt | timeruler/src/main/java/com/cxj/timeruler/indicator/TimeIndicator.kt:163 | Kotlin `roundToInt()`: the whole number within half a unit, ties upward |
| KotlinNumerics.KDiv | timeruler/src/main/java/com/cxj/timeruler/indicator/TimeIndicator.kt:171 | Kotlin `Int /`: truncating division, bracketed on each side of zero |
| KotlinNumerics.KRem | timeruler/src/main/java/com/cxj/timeruler/indicator/TimeIndicator.kt:165 | Kotlin `Int %`: the remainder takes the sign of the dividend and recomposes the dividend with `KDiv` |
| KotlinNumerics.ConversionsMonotone | timeruler/src/main/java/com/cxj/timeruler/TimeRuler.kt:1368-1369 | both float-to-int conversions keep order |
| KotlinNumerics.ConversionsShiftByOne | timeruler/src/main/java/com/cxj/timeruler/TimeRuler.kt:1368-1369 | on non-negative values both conversions commute with adding one |
| TimeItems.EmptyItem | timeruler/src/main/java/com/cxj/timeruler/TimeRuler.kt:1614-1616 | the item `addEmptyTimeItem` adds has no payload, the default flag and a white background |
| TimeItems.EmptinessIsPayloadAbsence | timeruler/srcbak/main/java/com/thirtydays/timeruler/bean/TimeItem.kt:17-19 | an item is empty exactly when its payload is absent, whatever its flag and colour |
| TimeItems.StructuralEquality | timeruler/srcbak/main/java/com/thirtydays/timeruler/bean/TimeItem.kt:8-15 | items built from equal flag, colour and payload are equal, as data-class equality promises |
| RulerScale.InitScale | timeruler/src/main/java/com/cxj/timeruler/TimeRuler.kt:442-469 | either mode's scale is valid, ticks × ms per tick span the 600-second ruler and pixels per tick × ms per pixel give ms per tick; normal mode is 3000 ticks of 100 px at 2 ms/px, full mode 10 ticks filling the width between the paddings |
| RulerScale.CalcTimeMillisecond | timeruler/src/main/java/com/cxj/timeruler/TimeRuler.kt:1076-1084 | the time is a multiple of 200 ms and, right of tick 0, the 200 ms step at or below the (truncated or rounded) elapsed time |
| RulerScale.CalcPosition | timeruler/src/main/java/com/cxj/timeruler/TimeRuler.kt:1089-1091 | the elapsed time at the returned position is the given time; a non-negative time lies right of tick 0 |
| RulerScale.CalcTimeIndex | timeruler/src/main/java/com/cxj/timeruler/TimeRuler.kt:1363-1371 | 0 left of tick 0, otherwise the tick whose fractional index is truncated (or rounded) to it |
| RulerScale.SnapTime | timeruler/src/main/java/com/cxj/timeruler/indicator/TimeIndicator.kt:163-173 | the snapped time is a multiple of 200 ms within 100 ms of the time: a remainder above 100 ms goes up, any other remainder down |
| RulerScale.CalcRoundTrip | timeruler/src/main/java/com/cxj/timeruler/TimeRuler.kt:1076-1091 | `calcTimeMillisecond(calcPosition(t))` gives back every 200-aligned time t, with either rounding |
| RulerScale.CalcPositionBelow | timeruler/src/main/java/com/cxj/timeruler/TimeRuler.kt:1076-1091 | the position of a position's truncated time is at or left of it, by less than one 200 ms step |
| RulerScale.CalcOfWholeMilliseconds | timeruler/src/main/java/com/cxj/timeruler/TimeRuler.kt:1076-1084 | a position at a whole number of ms is quantised from that number |
| RulerScale.IndexRoundingOrder | timeruler/src/main/java/com/cxj/timeruler/TimeRuler.kt:1363-1371 | the truncated tick index is at most the rounded one, which is at most one more |
| RulerScale.CalcTimeIndexMonotone | timeruler/src/main/java/com/cxj/timeruler/TimeRuler.kt:1363-1371 | positions further right belong to the same or a later tick |
| RulerScale.TimeIndexAfterShiftRight | timeruler/src/main/java/com/cxj/timeruler/TimeRuler.kt:1363-1371 | one segment right raises the tick index by at most one |
| RulerScale.TimeIndexAfterShiftLeft | timeruler/src/main/java/com/cxj/timeruler/TimeRuler.kt:1363-1371 | one segment left lowers the tick index by one, or leaves it at 0 |
| RulerScale.TickIndexOfTickPosition | timeruler/src/main/java/com/cxj/timeruler/TimeRuler.kt:1363-1371 | a tick's own position belongs to that tick under either rounding |
| RulerScale.TickTimeCorrespondence | timeruler/src/main/java/com/cxj/timeruler/TimeRuler.kt:1076-1091 | tick k is drawn at k × 200 ms and that time maps back to tick k |
| RulerScale.CalcPositionMonotone | timeruler/src/main/java/com/cxj/timeruler/TimeRuler.kt:1089-1091 | later times are drawn further right |
| RulerScale.CalcPositionOrder | timeruler/src/main/java/com/cxj/timeruler/TimeRuler.kt:1089-1091 | positions in order come from times in order |
| RulerScale.SnapIdempotent | timeruler/src/main/java/com/cxj/timeruler/indicator/TimeIndicator.kt:163-173 | the snap fixes a time exactly when it is 200-aligned, so snapping twice is snapping once |
| RulerScale.SnapMonotone | timeruler/src/main/java/com/cxj/timeruler/indicator/TimeIndicator.kt:163-173 | the snap keeps order |
| RulerRules.ClampLeft | timeruler/src/main/java/com/cxj/timeruler/TimeRuler.kt:1336-1346 | the clamped offset lies in [0, maxLeft] (maxLeft when that is negative), is one of the offset, 0 and maxLeft, and an offset already in range is kept |
| RulerRules.ClampLeftIdempotent | timeruler/src/main/java/com/cxj/timeruler/TimeRuler.kt:1336-1346 | clamping twice is clamping once |
| RulerRules.ListenerIndexAsWrittenCollapses | timeruler/src/main/java/com/cxj/timeruler/TimeRuler.kt:517-532 | as written, every time below 200 s is looked up as item 0 |
| RulerRules.ListenerIndexCounterexample | timeruler/src/main/java/com/cxj/timeruler/TimeRuler.kt:517-532 | at 400 ms the written lookup gives item 0 where item 2 sits |
| RulerRules.ListenerIndex | timeruler/src/main/java/com/cxj/timeruler/TimeRuler.kt:517-532 | the item index of a time: the 200 ms step it falls in |
| RulerRules.ListenerIndexOfTick | timeruler/src/main/java/com/cxj/timeruler/TimeRuler.kt:517-532 | the time of tick k is looked up as item k |
| RulerRules.PositionChangedEvents | timeruler/src/main/java/com/cxj/timeruler/TimeRuler.kt:517-532 | the time callback and a selection callback carrying the same item at the intended index `ListenerIndex` (Finding 2); selected exactly when the list reaches the time's index, with the item at that index |
| RulerRules.PlayReportTime | timeruler/src/main/java/com/cxj/timeruler/TimeRuler.kt:276-280 | on the normal scale the player reports tick index × 200 ms |
| RulerRules.FixTargetIndex | timeruler/src/main/java/com/cxj/timeruler/TimeRuler.kt:865-893 | the tick a stopped playback is carried to is the next tick after the position (the previous one past the last item) |
| RulerRules.TruncatedTickBracket | timeruler/src/main/java/com/cxj/timeruler/TimeRuler.kt:865-893 | a position off the ticks lies strictly between the tick of its truncated index and the next |
| RulerRules.FixTargetSkipsTick | timeruler/src/main/java/com/cxj/timeruler/TimeRuler.kt:865-893 | three quarters into segment k the written target is tick k + 2, skipping tick k + 1, which the corrected target picks |
| RulerRules.CountStarts | timeruler/src/main/java/com/cxj/timeruler/TimeRuler.kt:1053-1058 | the number of `onStart` callbacks in a log is at most its length |
| RulerRules.CountStartsExtremes | timeruler/src/main/java/com/cxj/timeruler/TimeRuler.kt:1053-1058 | the count is zero exactly when the log holds no `onStart`, and equals the log's length exactly when every callback is `onStart` |
| RulerRules.CountStartsWithout | timeruler/src/main/java/com/cxj/timeruler/TimeRuler.kt:1053-1058 | callbacks other than `onStart` leave the count unchanged |
| RulerRules.CountStartsSnoc | timeruler/src/main/java/com/cxj/timeruler/TimeRuler.kt:1053-1058 | appending a callback adds one to the count exactly when it is `onStart` |
| RulerRules.FollowPlayhead | timeruler/src/main/java/com/cxj/timeruler/TimeRuler.kt:272-274 | the player scrolls so that the play indicator is never right of the centre, only ever to the right, and either not at all or exactly to the centre |
| RulerRules.AddedItems | timeruler/src/main/java/com/cxj/timeruler/TimeRuler.kt:1529-1609 | the timeline after an add at tick k: item t at k, the items before it kept, empty items padding up to k, the rest one later |
| RulerRules.DeletedItems | timeruler/src/main/java/com/cxj/timeruler/TimeRuler.kt:1722-1768 | the timeline after a delete at k: one shorter, the items before k kept, the rest one earlier |
| RulerRules.DeleteUndoesInsert | timeruler/src/main/java/com/cxj/timeruler/TimeRuler.kt:1529-1768 | deleting the item just inserted within the list restores the timeline |
| RulerRules.DeleteAfterAppendLeavesPadding | timeruler/src/main/java/com/cxj/timeruler/TimeRuler.kt:1529-1768 | deleting an item appended past the end leaves the timeline with its empty padding |
| RulerRules.PullBBackKeepsRange | timeruler/src/main/java/com/cxj/timeruler/TimeRuler.kt:1401-1430 | when a delete from A to B pulls B back, A stays before B and the range holds the same items less the deleted one |
| RulerRules.DeleteBeforeRangeKeepsB | timeruler/src/main/java/com/cxj/timeruler/TimeRuler.kt:1401-1430 | a delete before A leaves a full range in place while later items move one tick earlier, so B stays inside the shortened timeline exactly when it was not on the last item |
| RulerRules.SelectionAfterDelete | timeruler/src/main/java/com/cxj/timeruler/TimeRuler.kt:1755-1766 | after a delete the selection callback reports the item now at the index, or no selection past the end |
| CircleIndicators.CircleIndicator.constructor | timeruler/src/main/java/com/cxj/timeruler/indicator/CircleIndicator.kt:96-128 | a new item carries its TimeItem and flag, white when its colour is 0, sits at the given position with its time computed from it, and starts with its hit rectangle at screen position 0 |
| CircleIndicators.CircleIndicator.RefreshRect | timeruler/src/main/java/com/cxj/timeruler/indicator/CircleIndicator.kt:393-398 | the hit rectangle is the 2·radius square left of and below the screen position and top |
| CircleIndicators.CircleIndicator.TouchedWithinRadius | timeruler/src/main/java/com/cxj/timeruler/indicator/CircleIndicator.kt:280-282 | with a fresh rectangle a touch hits exactly within radius horizontally and within the circle's height below its top |
| CircleIndicators.CircleIndicator.MoveTo | timeruler/src/main/java/com/cxj/timeruler/indicator/CircleIndicator.kt:422-435 | the item goes to the position at once, its time follows it, and it is marked moving |
| CircleIndicators.CircleIndicator.MoveToNext | timeruler/src/main/java/com/cxj/timeruler/indicator/CircleIndicator.kt:404-407 | one segment later with its time following, moving and no longer selected |
| CircleIndicators.CircleIndicator.MoveToPrevious | timeruler/src/main/java/com/cxj/timeruler/indicator/CircleIndicator.kt:413-415 | one segment earlier with its time following, moving |
| CircleIndicators.CircleIndicator.ShiftPositionOnly | timeruler/src/main/java/com/cxj/timeruler/TimeRuler.kt:1586 | an off-screen item is moved by a segment but keeps its old time |
| CircleIndicators.CircleIndicator.ShiftBy | timeruler/src/main/java/com/cxj/timeruler/TimeRuler.kt:1586 | an off-screen item moved by a segment with its time following it |
| CircleIndicators.ShiftPositionOnlyLeavesStaleTime | timeruler/src/main/java/com/cxj/timeruler/TimeRuler.kt:1586 | after the written off-screen shift the item's stored time is one 200 ms step behind the time of its new position |
| CircleIndicators.CircleIndicator.Show | timeruler/src/main/java/com/cxj/timeruler/indicator/CircleIndicator.kt:256-266 | the fade-in starts at the current screen position with a fresh rectangle, remembering whether the item was inserted |
| CircleIndicators.CircleIndicator.FinishShow | timeruler/src/main/java/com/cxj/timeruler/indicator/CircleIndicator.kt:199-219 | the fade-in ends: the item follows the scroll offset and is selected exactly when on the playhead's tick |
| CircleIndicators.CircleIndicator.Delete | timeruler/src/main/java/com/cxj/timeruler/indicator/CircleIndicator.kt:272-278 | the fade-out starts |
| CircleIndicators.CircleIndicator.FinishDelete | timeruler/src/main/java/com/cxj/timeruler/indicator/CircleIndicator.kt:225-234 | the fade-out ends |
| CircleIndicators.CircleIndicator.RefreshPosAndDraw | timeruler/src/main/java/com/cxj/timeruler/indicator/CircleIndicator.kt:184-193 | the item follows the scroll offset with a fresh rectangle and is selected exactly when on the playhead's tick |
| RangeIndicators.CalcMarkerPosition | timeruler/src/main/java/com/cxj/timeruler/indicator/RangeIndicator.kt:280-285 | a marker target: tick 0 when left of it, otherwise the position capped by the maximum |
| RangeIndicators.RangeIndicator.constructor | timeruler/src/main/java/com/cxj/timeruler/indicator/RangeIndicator.kt:47-91 | two distinct new markers at tick 0 with time 0, neither shown nor touched |
| RangeIndicators.RangeIndicator.SetATime | timeruler/src/main/java/com/cxj/timeruler/indicator/RangeIndicator.kt:412-416 | A is shown at the position with its rounded time |
| RangeIndicators.RangeIndicator.SetBTime | timeruler/src/main/java/com/cxj/timeruler/indicator/RangeIndicator.kt:422-430 | B is shown at the position with its rounded time when A is shown, and nothing changes otherwise |
| RangeIndicators.RangeIndicator.Reset | timeruler/src/main/java/com/cxj/timeruler/indicator/RangeIndicator.kt:443-449 | both markers hidden, at tick 0, with time 0 |
| RangeIndicators.RangeIndicator.RefreshPosition | timeruler/src/main/java/com/cxj/timeruler/indicator/RangeIndicator.kt:451-454 | both markers are redrawn at the positions of their times |
| RangeIndicators.RangeIndicator.IsTouched | timeruler/src/main/java/com/cxj/timeruler/indicator/RangeIndicator.kt:226-265 | a touch hits the range when it hits a shown marker; which marker takes it when both are hit follows the written priority (B when A and B share a tick short of the last item) |
| RangeIndicators.RangeIndicator.UpdateIndicatorAPosition | timeruler/src/main/java/com/cxj/timeruler/indicator/RangeIndicator.kt:305-317 | A settles on the snapped time of its target, the listener is due exactly when that time is new, A stays at or before a settled B, and without B A is not after the last item |
| RangeIndicators.RangeIndicator.UpdateIndicatorBPosition | timeruler/src/main/java/com/cxj/timeruler/indicator/RangeIndicator.kt:323-336 | B settles on the snapped time of its target, the listener is due exactly when that time is new, and B stays from A to the last item |
| RangeIndicators.RangeIndicator.UpdatePosition | timeruler/src/main/java/com/cxj/timeruler/indicator/RangeIndicator.kt:291-299 | the touched marker settles (A first), the other stays, nothing happens when none is touched, and the touch flags are cleared |
| RangeIndicators.RangeIndicator.MoveTo | timeruler/src/main/java/com/cxj/timeruler/indicator/RangeIndicator.kt:356-386 | the touched marker is drawn at its clamped target, A never right of B, the other marker stays, and nothing happens when none is touched |
| RangeIndicators.RangeIndicator.SetDragging | timeruler/src/main/java/com/cxj/timeruler/indicator/RangeIndicator.kt:392-402 | the touched marker takes the dragging flag and releasing clears it on both |
| TimeIndicators.CheckAndFixToRealPosition | timeruler/src/main/java/com/cxj/timeruler/indicator/TimeIndicator.kt:213-230 | a screen position becomes a timeline position clamped to the ruler from tick 0 to the last tick |
| TimeIndicators.SnappedTime | timeruler/src/main/java/com/cxj/timeruler/indicator/TimeIndicator.kt:154-176 | the time a marker settles on is non-negative, 200-aligned and within about 100 ms of the clamped position's time |
| TimeIndicators.TimeIndicator.constructor | timeruler/src/main/java/com/cxj/timeruler/indicator/TimeIndicator.kt:78-101 | a new marker at tick 0 with time 0, shown and not dragged |
| TimeIndicators.TimeIndicator.GetTime | timeruler/src/main/java/com/cxj/timeruler/indicator/TimeIndicator.kt:326-331 | the marker's time is 200-aligned and non-negative right of tick 0 |
| TimeIndicators.TimeIndicator.UpdatePosition | timeruler/src/main/java/com/cxj/timeruler/indicator/TimeIndicator.kt:154-207 | the marker settles on the snapped time, is drawn at that time's position, and reports exactly when the time differs from the last one reported |
| TimeIndicators.TimeIndicator.MoveTo | timeruler/src/main/java/com/cxj/timeruler/indicator/TimeIndicator.kt:236-255 | the marker is drawn at the clamped position; in normal mode nothing else changes, in full mode its position and truncated time follow and it reports a new time |
| TimeIndicators.TimeIndicator.SetRealPosition | timeruler/src/main/java/com/cxj/timeruler/indicator/TimeIndicator.kt:343-347 | the marker goes to the position and its time is that position's rounded time |
| TimeIndicators.TimeIndicator.RefreshPosition | timeruler/src/main/java/com/cxj/timeruler/indicator/TimeIndicator.kt:334-337 | the marker is redrawn at its time's position, from which its time reads back unchanged |
| TimeIndicators.TimeIndicator.Reset | timeruler/src/main/java/com/cxj/timeruler/indicator/TimeIndicator.kt:310-314 | the marker goes back to tick 0 with time 0, having reported the time of screen position 0 |
| TimeIndicators.CheckAndFixIdempotent | timeruler/src/main/java/com/cxj/timeruler/indicator/TimeIndicator.kt:213-230 | clamping a clamped position changes nothing |
| TimeIndicators.CheckAndFixMonotone | timeruler/src/main/java/com/cxj/timeruler/indicator/TimeIndicator.kt:213-230 | the clamp keeps order |
| TimeIndicators.SnapFixedPoint | timeruler/src/main/java/com/cxj/timeruler/indicator/TimeIndicator.kt:154-176 | a marker put on the position of an aligned time settles on that time |
| TimeIndicators.SnappedTimeMonotone | timeruler/src/main/java/com/cxj/timeruler/indicator/TimeIndicator.kt:154-176 | a position further right settles on the same or a later time |
| TimeIndicators.ModeSwitchRoundTrip | timeruler/src/main/java/com/cxj/timeruler/TimeRuler.kt:1661-1687 | an aligned time survives the trip through the full-mode scale and back to the normal-mode position |
| TimeIndicators.SnapAtRulerStart | timeruler/src/main/java/com/cxj/timeruler/indicator/TimeIndicator.kt:310-314 | at the start of the ruler the reset marker reports time 0 |
| TimeRulers.TimeItemsOf | timeruler/src/main/java/com/cxj/timeruler/TimeRuler.kt:1943-1949 | `getTimeItems`: the timeline items of the item list, one per item and in list order |
| TimeRulers.TimeRuler.constructor | timeruler/src/main/java/com/cxj/timeruler/TimeRuler.kt:382-413 | a new ruler is in normal mode at scroll offset 0, with no items, no playback, no range shown and the playhead on tick 0 at time 0 |
| TimeRulers.TimeRuler.Emit | timeruler/src/main/java/com/cxj/timeruler/TimeRuler.kt:1969-2012 | the listener hears exactly the given callbacks, appended to what it heard before, and the ruler's invariant is kept |
| TimeRulers.TimeRuler.ComputeTime | timeruler/src/main/java/com/cxj/timeruler/TimeRuler.kt:1336-1355 | the scroll offset is clamped to the scrollable width and the left-edge tick is recomputed from it |
| TimeRulers.TimeRuler.NotifyPlayheadChanged | timeruler/src/main/java/com/cxj/timeruler/TimeRuler.kt:516-532 | the playhead's listener reports the new time truncated to 200 ms together with the item on that tick, if any |
| TimeRulers.TimeRuler.UpdatePlayhead | timeruler/src/main/java/com/cxj/timeruler/indicator/TimeIndicator.kt:154-207 | the playhead settles on the snapped time of the screen position and the listener hears of it only when the time changed |
| TimeRulers.TimeRuler.OnRangeChanged | timeruler/src/main/java/com/cxj/timeruler/TimeRuler.kt:542-550 | after a range change a playhead left of a shown A is pulled onto A, otherwise one right of a shown B is pulled onto B, otherwise nothing changes |
| TimeRulers.TimeRuler.MoveTimeIndicatorToCenter | timeruler/src/main/java/com/cxj/timeruler/TimeRuler.kt:908-951 | past the screen centre the ruler scrolls so that the next tick lands one segment right of the centre; before it the playhead steps one segment |
| TimeRulers.TimeRuler.JumpPlayhead | timeruler/src/main/java/com/cxj/timeruler/indicator/TimeIndicator.kt:343-347 | the playhead is placed at a real position and then settles on its snapped time |
| TimeRulers.TimeRuler.AppendPadded | timeruler/src/main/java/com/cxj/timeruler/TimeRuler.kt:1551-1565 | the append branch: every tick from the end of the list up to k - 1 gets an empty item on its tick, then the new item is appended on tick k |
| TimeRulers.TimeRuler.ShiftItemsRight | timeruler/src/main/java/com/cxj/timeruler/TimeRuler.kt:1579-1592 | every item from index `from` on moves one segment later and the items before it stay; every item keeps the time of its position, off screen too, where the source leaves an off-screen item's time behind (Finding 1) |
| TimeRulers.TimeRuler.InsertShifted | timeruler/src/main/java/com/cxj/timeruler/TimeRuler.kt:1579-1595 | the insert branch: items from k on move one tick later and the new item takes index k on tick k |
| TimeRulers.TimeRuler.AddTimeItem | timeruler/src/main/java/com/cxj/timeruler/TimeRuler.kt:1529-1609 | ignored while playing, in full mode, with every tick filled or during another add or delete; otherwise the new item lands on the playhead's tick, the list stays on the grid, and a fade-in starts |
| TimeRulers.TimeRuler.AddAppended | timeruler/src/main/java/com/cxj/timeruler/TimeRuler.kt:1551-1575 | past the end of the list: pad, append on the playhead's tick, fade in and step the playhead on |
| TimeRulers.TimeRuler.AddInserted | timeruler/src/main/java/com/cxj/timeruler/TimeRuler.kt:1576-1606 | within the list: shift the later items, insert on the playhead's tick, fade in, and grow the range |
| TimeRulers.TimeRuler.StartShowing | timeruler/src/main/java/com/cxj/timeruler/indicator/CircleIndicator.kt:256-266 | the new item's fade-in starts and the ruler counts as operating until it ends |
| TimeRulers.TimeRuler.CheckRangeIndicatorWhenAdd | timeruler/src/main/java/com/cxj/timeruler/TimeRuler.kt:1436-1444 | with B shown and the new item between A and B, B moves one segment later, never past the last item |
| TimeRulers.TimeRuler.FinishShow | timeruler/src/main/java/com/cxj/timeruler/TimeRuler.kt:1567-1572 | at the end of the fade-in the add is over, the item is selected exactly when on the playhead's tick, and the listener hears `onAdd` and the new size |
| TimeRulers.TimeRuler.Delete | timeruler/src/main/java/com/cxj/timeruler/TimeRuler.kt:1722-1768 | ignored while playing, in full mode, with no item on the playhead's tick or during another add or delete; otherwise the range is adjusted, later items move one tick earlier and the item fades out |
| TimeRulers.TimeRuler.DeleteAt | timeruler/src/main/java/com/cxj/timeruler/TimeRuler.kt:1734-1767 | `delete` past its guards: range adjusted for item k, later items shifted, item k fading out |
| TimeRulers.TimeRuler.ShiftForDelete | timeruler/src/main/java/com/cxj/timeruler/TimeRuler.kt:1739-1752 | the items after k move one tick earlier, leaving a hole at k; every other item stays on its tick |
| TimeRulers.TimeRuler.ShiftItemsLeft | timeruler/src/main/java/com/cxj/timeruler/TimeRuler.kt:1739-1752 | every item from index `from` on moves one segment earlier and the items before it stay; every item keeps the time of its position, off screen too, where the source leaves an off-screen item's time behind (Finding 1) |
| TimeRulers.TimeRuler.CheckRangeIndicatorWithDelete | timeruler/src/main/java/com/cxj/timeruler/TimeRuler.kt:1401-1430 | deleting under the range: a lone A on tick 0 or on the last item's tick clears the range; otherwise B (or A) is pulled back one segment when the deleted item lies at or before it |
| TimeRulers.TimeRuler.HideRange | timeruler/src/main/java/com/cxj/timeruler/indicator/RangeIndicator.kt:443-449 | both markers are hidden and back at the ruler's start, silently |
| TimeRulers.TimeRuler.FinishDelete | timeruler/src/main/java/com/cxj/timeruler/TimeRuler.kt:1755-1766 | at the end of the fade-out the item leaves the list, the delete is over, and the listener hears `onDelete`, the selection now under the playhead and the new size |
| TimeRulers.TimeRuler.RemoveItem | timeruler/src/main/java/com/cxj/timeruler/TimeRuler.kt:1756 | the faded item leaves the list and the hole closes, every remaining item on its own tick |
| TimeRulers.TimeRuler.GetTimeItemIndex | timeruler/src/main/java/com/cxj/timeruler/TimeRuler.kt:1041-1048 | the index of the first item with the given time, or -1 exactly when no item has it |
| TimeRulers.TimeRuler.UpdateTimeIndicatorPosition | timeruler/src/main/java/com/cxj/timeruler/TimeRuler.kt:1491-1509 | the playhead settles at the touch, clamped to the shown range |
| TimeRulers.TimeRuler.MoveTimeIndicator | timeruler/src/main/java/com/cxj/timeruler/TimeRuler.kt:1467-1485 | a dragged playhead follows the touch, clamped to the shown range |
| TimeRulers.TimeRuler.TouchDown | timeruler/src/main/java/com/cxj/timeruler/TimeRuler.kt:1232-1251 | ignored while playing or operating; a hit range marker is grabbed, otherwise a hit playhead is |
| TimeRulers.TimeRuler.TouchMove | timeruler/src/main/java/com/cxj/timeruler/TimeRuler.kt:1252-1275 | a grabbed marker is dragged, else a grabbed playhead, else the ruler scrolls by the move and the offset is clamped |
| TimeRulers.TimeRuler.TouchUp | timeruler/src/main/java/com/cxj/timeruler/TimeRuler.kt:1276-1299 | a grabbed marker is dropped on a tick; a grabbed playhead or a tap settles the playhead at the touch, whose tick becomes the latest touched index |
| TimeRulers.TimeRuler.ClickEvents | timeruler/src/main/java/com/cxj/timeruler/TimeRuler.kt:1450-1461 | a click on the item at the tapped index is reported exactly when the tap hits it and that index was the latest touched one |
| TimeRulers.TimeRuler.ProcessTimeItemClick | timeruler/src/main/java/com/cxj/timeruler/TimeRuler.kt:1450-1461 | the listener hears the click reported by `ClickEvents` and nothing else |
| TimeRulers.TimeRuler.CallbackStart | timeruler/src/main/java/com/cxj/timeruler/TimeRuler.kt:1053-1058 | `onStart` fires at most once per playback session |
| TimeRulers.TimeRuler.CheckIfNeedToContinuePlay | timeruler/src/main/java/com/cxj/timeruler/TimeRuler.kt:852-860 | outside a mode switch made during playback, playback has stopped and the listener hears `onStop` |
| TimeRulers.TimeRuler.PlayDistanceReachesEnd | timeruler/src/main/java/com/cxj/timeruler/TimeRuler.kt:1104-1140 | the play animation ends at B when B is shown, and otherwise at the last item's tick |
| TimeRulers.TimeRuler.StartPlayer | timeruler/src/main/java/com/cxj/timeruler/TimeRuler.kt:1116-1130 | with animations the play animation runs from the current offset over the play distance; without them the stepped player's first step is queued |
| TimeRulers.TimeRuler.DoPlay | timeruler/src/main/java/com/cxj/timeruler/TimeRuler.kt:1104-1140 | the play indicator replaces the playhead, the player starts, and `onStart` fires once per session |
| TimeRulers.TimeRuler.PlayStartBound | timeruler/src/main/java/com/cxj/timeruler/TimeRuler.kt:961-966 | the start `preparePlay` chooses (the playhead, or tick 0 past the last item) always has an item at its tick |
| TimeRulers.TimeRuler.PreparePlay | timeruler/src/main/java/com/cxj/timeruler/TimeRuler.kt:957-1002 | playback is prepared from the chosen start up to B when shown (a lone A is cleared) or else to the last item, starting at once or after centring |
| TimeRulers.TimeRuler.SetPlayRange | timeruler/src/main/java/com/cxj/timeruler/TimeRuler.kt:958-975 | the start position and the start and stop ticks of the round, with a lone A cleared |
| TimeRulers.TimeRuler.StartOrCenter | timeruler/src/main/java/com/cxj/timeruler/TimeRuler.kt:974-1000 | the play indicator on the start, then play at once when it is exactly at the screen centre, else scroll it there first with playback pending |
| TimeRulers.TimeRuler.ResetPlayTime | timeruler/src/main/java/com/cxj/timeruler/TimeRuler.kt:1156-1173 | the playhead and the play indicator go back to A when shown, else to tick 0, and the ruler starts scrolling them into view |
| TimeRulers.TimeRuler.FinishCentering | timeruler/src/main/java/com/cxj/timeruler/TimeRuler.kt:561-587 | at the end of the centring animation the ruler is on its target; a pending start plays, a repeat prepares the next round, otherwise playback stops |
| TimeRulers.TimeRuler.RunPreparePost | timeruler/src/main/java/com/cxj/timeruler/TimeRuler.kt:573-580 | a posted `preparePlay` prepares the next round in normal mode and reports the stop in full mode |
| TimeRulers.TimeRuler.PlayTick | timeruler/src/main/java/com/cxj/timeruler/TimeRuler.kt:248-302 | a message of the stepped player: past the stop tick nothing moves; otherwise both indicators move to the next item, the ruler follows, the time is reported, and the last tick posts the end or the repeat |
| TimeRulers.TimeRuler.StepTo | timeruler/src/main/java/com/cxj/timeruler/TimeRuler.kt:269-298 | the stepped player at tick i up to the stop tick: move there, then post the end or queue the next tick |
| TimeRulers.TimeRuler.RunStepPost | timeruler/src/main/java/com/cxj/timeruler/TimeRuler.kt:282-295 | the end posted by the stepped player: the playhead returns to the range start and, without repeat, playback ends with `onStop` |
| TimeRulers.TimeRuler.FixTimeIndicatorOffset | timeruler/src/main/java/com/cxj/timeruler/TimeRuler.kt:865-893 | on cancel, a play indicator between ticks is carried to the next tick (never past the last item) and a corrective animation is posted |
| TimeRulers.TimeRuler.RunFixPost | timeruler/src/main/java/com/cxj/timeruler/TimeRuler.kt:884-887 | the posted corrective animation starts towards the target tick |
| TimeRulers.TimeRuler.AnimationEnded | timeruler/src/main/java/com/cxj/timeruler/TimeRuler.kt:636-662 | the play animation's end: after a natural end the return to the start is posted; after the corrective one the playhead is shown on the target again and `onStop` fires |
| TimeRulers.TimeRuler.CancelPlayAnimation | timeruler/src/main/java/com/cxj/timeruler/TimeRuler.kt:663-667 | cancelling a running play animation marks the cancel, fixes the offset and then runs its end; a stopped animator does nothing |
| TimeRulers.TimeRuler.RunAnimEndPost | timeruler/src/main/java/com/cxj/timeruler/TimeRuler.kt:639-656 | what the end of an uncancelled play animation posted: a repeat returns to the start, otherwise playback ends, the playhead returns to the start and `onStop` fires |
| TimeRulers.TimeRuler.Play | timeruler/src/main/java/com/cxj/timeruler/TimeRuler.kt:1774-1793 | ignored without items or while playing; otherwise a session starts in which `onStart` has not fired, and the player of the current mode runs |
| TimeRulers.TimeRuler.StartSession | timeruler/src/main/java/com/cxj/timeruler/TimeRuler.kt:1784-1792 | `play` past its guards: the session flags set, then the player of the current mode |
| TimeRulers.TimeRuler.StopPlay | timeruler/src/main/java/com/cxj/timeruler/TimeRuler.kt:1798-1818 | ignored unless playing; otherwise the session ends and the current player is stopped (animation cancelled, step messages dropped, or the full-mode player stopped) |
| TimeRulers.TimeRuler.StopPlayInFullMode | timeruler/src/main/java/com/cxj/timeruler/TimeRuler.kt:1145-1151 | the full-mode player's messages are dropped, the playhead is shown and `onStop` fires |
| TimeRulers.TimeRuler.Reset | timeruler/src/main/java/com/cxj/timeruler/TimeRuler.kt:1823-1840 | ignored while playing; otherwise the list is emptied, the ruler scrolls back to its start, the playhead returns to tick 0 and a shown range is cleared |
| TimeRulers.TimeRuler.ResetPlayhead | timeruler/src/main/java/com/cxj/timeruler/indicator/TimeIndicator.kt:310-314 | with no items and the ruler at offset 0 the playhead returns to tick 0, reported only if it is news |
| TimeRulers.TimeRuler.ClearRangeAndScroll | timeruler/src/main/java/com/cxj/timeruler/TimeRuler.kt:1834-1838 | a shown range is cleared without telling the range listener, and the scroll offset is clamped |
| TimeRulers.TimeRuler.SetRangeATime | timeruler/src/main/java/com/cxj/timeruler/TimeRuler.kt:1888-1899 | A moves to the playhead and `onSetA` fires, unless playing, without items, or with the playhead's truncated time past the last item's |
| TimeRulers.TimeRuler.SetRangeBTime | timeruler/src/main/java/com/cxj/timeruler/TimeRuler.kt:1901-1912 | under the same guards B moves to the playhead only when A is shown; `onSetB` fires either way |
| TimeRulers.TimeRuler.RangeSetAdmitsItemTicks | timeruler/src/main/java/com/cxj/timeruler/TimeRuler.kt:1892-1896 | on the grid the guard of `setRangATime`/`setRangeBTime` admits exactly the playhead ticks that carry an item |
| TimeRulers.TimeRuler.ResetTimeRange | timeruler/src/main/java/com/cxj/timeruler/TimeRuler.kt:1917-1923 | ignored while playing; otherwise both markers are hidden on tick 0 and `onReset` fires |
| TimeRulers.TimeRuler.CurrentTime | timeruler/src/main/java/com/cxj/timeruler/TimeRuler.kt:1692-1695 | the playhead's time is a multiple of 200 ms and non-negative on the ruler |
| TimeRulers.TimeRuler.ItemTimeIsTickTime | timeruler/src/main/java/com/cxj/timeruler/TimeRuler.kt:1041-1048 | on the grid item i carries tick i's time |
| TimeRulers.TimeRuler.StartFoundOnGrid | timeruler/src/main/java/com/cxj/timeruler/TimeRuler.kt:1007-1039 | on the grid every start at or right of tick 0 finds an item for `playInFullMode` |
| TimeRulers.TimeRuler.FirstItemStartFound | timeruler/src/main/java/com/cxj/timeruler/TimeRuler.kt:1007-1039 | the first item's own position always finds an item |
| TimeRulers.TimeRuler.PlayInFullMode | timeruler/src/main/java/com/cxj/timeruler/TimeRuler.kt:1007-1039 | the full-mode round starts at the item under the playhead (item 0 past the last) and runs to B or the last item; `onStart` fires once and the first item's time is reported |
| TimeRulers.TimeRuler.SetFullModeRange | timeruler/src/main/java/com/cxj/timeruler/TimeRuler.kt:1013-1031 | the round's start and end, by item index and by position |
| TimeRulers.TimeRuler.FullModeTick | timeruler/src/main/java/com/cxj/timeruler/TimeRuler.kt:307-354 | a message of the full-mode player: past the end index the round ends; otherwise both indicators go to the next item and its time is reported |
| TimeRulers.TimeRuler.EndFullRound | timeruler/src/main/java/com/cxj/timeruler/TimeRuler.kt:313-324 | the round's range is restored; without repeat the playhead is shown and `onStop` fires, with repeat the next round starts |
| TimeRulers.TimeRuler.ResetPlayTimeInFullMode | timeruler/src/main/java/com/cxj/timeruler/TimeRuler.kt:1178-1204 | the round runs from A to B when both are shown, else from the first item to the last, and both indicators go to its start |
| TimeRulers.TimeRuler.SetFullMode | timeruler/src/main/java/com/cxj/timeruler/TimeRuler.kt:1628-1659 | ignored during an add or delete or in the same mode; otherwise the mode switches and every indicator is back on its own time under the new scale |
| TimeRulers.TimeRuler.DoSwitchMode | timeruler/src/main/java/com/cxj/timeruler/TimeRuler.kt:1661-1681 | the new scale with every indicator on its own time; full mode saves the offset and shows the whole ruler, normal mode restores it or centres a moved playhead |
| TimeRulers.TimeRuler.RefreshIndicators | timeruler/src/main/java/com/cxj/timeruler/TimeRuler.kt:1683-1687 | the playhead, the range markers and the play indicator are back at the positions of their own times |
| TimeRulers.MakePads | timeruler/src/main/java/com/cxj/timeruler/TimeRuler.kt:1553-1562 | the padding items are new, empty, one per tick from the end of the list up to k - 1, each timed by its position |
| TimeRulers.SnapToTick | timeruler/src/main/java/com/cxj/timeruler/indicator/TimeIndicator.kt:154-207 | on the normal scale time k·200 ms is drawn at tick k and a playhead there snaps back to that time |
| TimeRulers.StepToNextTick | timeruler/src/main/java/com/cxj/timeruler/TimeRuler.kt:930-949 | a one-segment step from tick k lands on tick k + 1 and reads its time |
| TimeRulers.PlayheadStaysInRange | timeruler/src/main/java/com/cxj/timeruler/TimeRuler.kt:1491-1509 | a playhead clamped to the screen range settles at a time not before a shown A and not after a shown B |
| TimeRulers.LeftEdgeTick | timeruler/src/main/java/com/cxj/timeruler/TimeRuler.kt:1336-1355 | the left-edge tick is the tick at or left of the edge with the next tick right of it |
| LegacyScale.Geometry.TimeOfPerPixel | timeruler/srcbak/main/java/com/thirtydays/timeruler/TimeRuler.kt:390-392 | full mode spreads the ruler's ten minutes over the full-mode width: milliseconds per pixel, positive |
| LegacyScale.TickIndex | timeruler/srcbak/main/java/com/thirtydays/timeruler/TimeRuler.kt:1520 | `timePosition / segmentWidth`: the tick at or left of a non-negative position, and the position itself on a tick |
| LegacyScale.TickTime | timeruler/srcbak/main/java/com/thirtydays/timeruler/TimeRuler.kt:267-270 | the time the stepped player reports for index i is i·200 ms |
| LegacyScale.NormalMillisecond | timeruler/srcbak/main/java/com/thirtydays/timeruler/TimeRuler.kt:481 | the normal-mode time of a position is its tick index times 200 ms |
| LegacyScale.FullMillisecond | timeruler/srcbak/main/java/com/thirtydays/timeruler/TimeRuler.kt:477-479 | the full-mode time of a position is on the 200 ms grid and is the grid time at or below the position's time |
| LegacyScale.ConvertToFullModeTimePosition | timeruler/srcbak/main/java/com/thirtydays/timeruler/TimeRuler.kt:1191-1195 | the full-mode position of a normal position is the one whose time is that position's tick time; non-negative for non-negative positions |
| LegacyScale.ConvertToTimePosition | timeruler/srcbak/main/java/com/thirtydays/timeruler/TimeRuler.kt:1200-1205 | the normal position of a full-mode position is its time in half-milliseconds rounded to the nearest whole pixel |
| LegacyScale.ConvertNearQuantum | timeruler/srcbak/main/java/com/thirtydays/timeruler/TimeRuler.kt:1200-1205 | a full-mode position whose time is within half a millisecond of k·200 ms converts to tick k |
| LegacyScale.ConvertRoundTrip | timeruler/srcbak/main/java/com/thirtydays/timeruler/TimeRuler.kt:1151-1186 | converting to full mode and back lands on the tick of the original position, so a position on a tick round-trips exactly |
| LegacyScale.ConvertToFullMonotone | timeruler/srcbak/main/java/com/thirtydays/timeruler/TimeRuler.kt:1191-1195 | later normal positions never map to earlier full-mode positions |
| LegacyScale.TickIndexMonotone | timeruler/srcbak/main/java/com/thirtydays/timeruler/TimeRuler.kt:1520 | the tick index never decreases as the position grows |
| LegacyScale.ClampCurrentLeft | timeruler/srcbak/main/java/com/thirtydays/timeruler/TimeRuler.kt:1336-1349 | the scroll offset is held between -startOffset and the offset that puts the ruler's end at the screen's right edge, and is kept when already inside |
| LegacyScale.ClampCurrentLeftIdempotent | timeruler/srcbak/main/java/com/thirtydays/timeruler/TimeRuler.kt:1336-1349 | clamping an already clamped offset changes nothing |
| LegacyScale.CurrentLeftIndex | timeruler/srcbak/main/java/com/thirtydays/timeruler/TimeRuler.kt:1350 | the left-edge tick brackets a non-negative offset between itself and the next tick |
| LegacyScale.LabelSeconds | timeruler/srcbak/main/java/com/thirtydays/timeruler/TimeRuler.kt:1489-1495 | the number on a tick label: the whole seconds of tick `position` in normal mode, `position · timeOfPerSegment` in full mode |
| LegacyScale.FormatPosToTimeText | timeruler/srcbak/main/java/com/thirtydays/timeruler/TimeRuler.kt:1489-1495 | the label ends in `s` and the text before it reads back as the label's number |
| LegacyScale.IntToStringRoundTrip | timeruler/srcbak/main/java/com/thirtydays/timeruler/TimeRuler.kt:1491 | Kotlin's decimal rendering of an Int reads back as the same Int |
| LegacyTimeIndicators.ClampedTimePosition | timeruler/srcbak/main/java/com/thirtydays/timeruler/indicator/TimeIndicator.kt:198-211 | while the view is scrolled left of the ruler's start the unsnapped position is at least the start offset; otherwise it is at most the ruler's end; inside those bounds it is the truncated touch position plus the offset |
| LegacyTimeIndicators.NearestTick | timeruler/srcbak/main/java/com/thirtydays/timeruler/indicator/TimeIndicator.kt:213-219 | a non-negative position snaps to a tick at most half a segment below it and less than half a segment above it (exactly halfway goes down) |
| LegacyTimeIndicators.NearestTickOfTick | timeruler/srcbak/main/java/com/thirtydays/timeruler/indicator/TimeIndicator.kt:213-219 | a position on a tick stays where it is |
| LegacyTimeIndicators.NearestTickIsNearest | timeruler/srcbak/main/java/com/thirtydays/timeruler/indicator/TimeIndicator.kt:213-219 | no tick is closer to the position than the one it snaps to |
| LegacyTimeIndicators.NearestTickMonotone | timeruler/srcbak/main/java/com/thirtydays/timeruler/indicator/TimeIndicator.kt:213-219 | snapping keeps the order of positions |
| LegacyTimeIndicators.SettledTimePosition | timeruler/srcbak/main/java/com/thirtydays/timeruler/indicator/TimeIndicator.kt:188-233 | `updatePosition` always settles on a tick: never before 0 while the view is scrolled left of the start, never after the ruler's end otherwise, and never negative for a touch on the ruler |
| LegacyTimeIndicators.NearestTickBelow | timeruler/srcbak/main/java/com/thirtydays/timeruler/indicator/TimeIndicator.kt:213-219 | a position at most half a segment past a tick snaps to that tick or earlier |
| LegacyTimeIndicators.ClampedMonotone | timeruler/srcbak/main/java/com/thirtydays/timeruler/indicator/TimeIndicator.kt:198-211 | a touch further right never yields an earlier unsnapped position |
| LegacyTimeIndicators.ClampedOfTickScreen | timeruler/srcbak/main/java/com/thirtydays/timeruler/indicator/TimeIndicator.kt:198-211 | the screen position of a tick maps back to that tick, up to the two clamps |
| LegacyTimeIndicators.ClampToFullRuler | timeruler/srcbak/main/java/com/thirtydays/timeruler/indicator/TimeIndicator.kt:295-305 | a full-mode position is held between the start offset and the screen width less the end offset, and kept when already inside |
| LegacyTimeIndicators.FullTimeOf | timeruler/srcbak/main/java/com/thirtydays/timeruler/indicator/TimeIndicator.kt:307-308 | the rounded time of a clamped full-mode position lies within the ruler's ten minutes |
| LegacyTimeIndicators.FullSnapTime | timeruler/srcbak/main/java/com/thirtydays/timeruler/indicator/TimeIndicator.kt:293-322 | `updatePositionInFullMode` settles on the 200 ms grid time at or below the rounded time |
| LegacyTimeIndicators.GridPosition | timeruler/srcbak/main/java/com/thirtydays/timeruler/indicator/TimeIndicator.kt:310-313 | a grid time divided by the time per pixel is a position whose rounded time is that grid time |
| LegacyTimeIndicators.SnappedFullPositionTime | timeruler/srcbak/main/java/com/thirtydays/timeruler/indicator/TimeIndicator.kt:293-322 | the settled full-mode position is non-negative and its rounded time is the settled grid time |
| LegacyTimeIndicators.SnappedFullPositionOnGrid | timeruler/srcbak/main/java/com/thirtydays/timeruler/indicator/TimeIndicator.kt:293-322 | the settled full-mode position converts back onto a normal-mode tick |
| LegacyTimeIndicators.DragPosition | timeruler/srcbak/main/java/com/thirtydays/timeruler/indicator/TimeIndicator.kt:244-255 | a dragged marker is held between the start offset and the ruler's end on screen, and follows the touch (truncated) inside those bounds |
| LegacyTimeIndicators.TimeIndicator.constructor | timeruler/srcbak/main/java/com/thirtydays/timeruler/indicator/TimeIndicator.kt:82-103 | a new marker sits at position 0 in both modes, visible and not dragged, with its rectangle at the ruler's top |
| LegacyTimeIndicators.TimeIndicator.RefreshRect | timeruler/srcbak/main/java/com/thirtydays/timeruler/indicator/TimeIndicator.kt:328-333 | the rectangle is laid out around the screen position, shifted by the offsets, twice the marker's size |
| LegacyTimeIndicators.TimeIndicator.SetTouchArea | timeruler/srcbak/main/java/com/thirtydays/timeruler/indicator/TimeIndicator.kt:370-374 | touches are hit against the given custom area from now on |
| LegacyTimeIndicators.TimeIndicator.UpdatePositionInNormalMode | timeruler/srcbak/main/java/com/thirtydays/timeruler/indicator/TimeIndicator.kt:188-233 | the marker settles on `SettledTimePosition`, its screen position follows, and the listener is due exactly when the tick differs from the last one reported |
| LegacyTimeIndicators.TimeIndicator.UpdatePositionInFullMode | timeruler/srcbak/main/java/com/thirtydays/timeruler/indicator/TimeIndicator.kt:293-322 | the marker settles on the full-mode grid position, which converts onto a tick, and the listener is due exactly when the grid time changed |
| LegacyTimeIndicators.TimeIndicator.MoveToInNormalMode | timeruler/srcbak/main/java/com/thirtydays/timeruler/indicator/TimeIndicator.kt:239-258 | a normal-mode drag moves only the screen position, held by `DragPosition` |
| LegacyTimeIndicators.TimeIndicator.MoveToInFullMode | timeruler/srcbak/main/java/com/thirtydays/timeruler/indicator/TimeIndicator.kt:264-287 | a full-mode drag follows the clamped position exactly, records the 200 ms grid time at or below the dragged time, and reports exactly when that time changed |
| LegacyTimeIndicators.TimeIndicator.UpdatePosition | timeruler/srcbak/main/java/com/thirtydays/timeruler/indicator/TimeIndicator.kt:188-233 | dispatches on the mode: one mode's fields settle and the other mode's fields stay as they were |
| LegacyTimeIndicators.TimeIndicator.MoveTo | timeruler/srcbak/main/java/com/thirtydays/timeruler/indicator/TimeIndicator.kt:239-258 | dispatches on the mode: a drag moves that mode's fields only, and a normal-mode drag never notifies |
| LegacyTimeIndicators.TimeIndicator.RefreshOnDraw | timeruler/srcbak/main/java/com/thirtydays/timeruler/indicator/TimeIndicator.kt:110-149 | a shown, undragged marker that is not past the view's right edge is redrawn at its timeline position less the scroll offset; otherwise the screen position and rectangle stay |
| LegacyTimeIndicators.TimeIndicator.RefreshOnDrawInFullMode | timeruler/srcbak/main/java/com/thirtydays/timeruler/indicator/TimeIndicator.kt:156-181 | a shown, undragged marker is redrawn at its full-mode position plus the start offset; otherwise nothing moves |
| LegacyCircleIndicators.CircleIndicator.constructor | timeruler/srcbak/main/java/com/thirtydays/timeruler/indicator/CircleIndicator.kt:90-121 | a new item carries its TimeItem and flag, white when its colour is 0, and is selected exactly when on the playhead's position |
| LegacyCircleIndicators.CircleIndicator.RefreshRect | timeruler/srcbak/main/java/com/thirtydays/timeruler/indicator/CircleIndicator.kt:378-383 | the hit rectangle is the 2·radius square starting radius left of the screen position |
| LegacyCircleIndicators.CircleIndicator.TouchedWithinRadius | timeruler/srcbak/main/java/com/thirtydays/timeruler/indicator/CircleIndicator.kt:265-267 | with a fresh rectangle a touch hits exactly within radius horizontally and within the circle's height below its top |
| LegacyCircleIndicators.CircleIndicator.MoveTo | timeruler/srcbak/main/java/com/thirtydays/timeruler/indicator/CircleIndicator.kt:407-419 | the timeline position changes at once, animated or not |
| LegacyCircleIndicators.CircleIndicator.MoveToNext | timeruler/srcbak/main/java/com/thirtydays/timeruler/indicator/CircleIndicator.kt:389-392 | exactly one segment later, a tick staying a tick, and no longer selected |
| LegacyCircleIndicators.CircleIndicator.MoveToPrevious | timeruler/srcbak/main/java/com/thirtydays/timeruler/indicator/CircleIndicator.kt:398-400 | exactly one segment earlier, a tick staying a tick |
| LegacyCircleIndicators.CircleIndicator.Show | timeruler/srcbak/main/java/com/thirtydays/timeruler/indicator/CircleIndicator.kt:242-251 | the fade-in starts at the screen position of the item, with a fresh hit rectangle |
| LegacyCircleIndicators.CircleIndicator.FinishShow | timeruler/srcbak/main/java/com/thirtydays/timeruler/indicator/CircleIndicator.kt:192-206 | the fade-in is over; the item follows the scroll and is selected exactly when on the playhead's position |
| LegacyCircleIndicators.CircleIndicator.Delete | timeruler/srcbak/main/java/com/thirtydays/timeruler/indicator/CircleIndicator.kt:257-263 | the fade-out starts |
| LegacyCircleIndicators.CircleIndicator.FinishDelete | timeruler/srcbak/main/java/com/thirtydays/timeruler/indicator/CircleIndicator.kt:212-221 | the fade-out is over |
| LegacyCircleIndicators.CircleIndicator.FinishMove | timeruler/srcbak/main/java/com/thirtydays/timeruler/indicator/CircleIndicator.kt:227-236 | the move is over; the item is drawn at its timeline position and selected exactly when on the playhead's position |
| LegacyCircleIndicators.CircleIndicator.RefreshPosAndDraw | timeruler/srcbak/main/java/com/thirtydays/timeruler/indicator/CircleIndicator.kt:178-186 | the item follows the scroll offset and is selected exactly when on the playhead's position |
| LegacyRangeIndicators.CalcMarkerPosition | timeruler/srcbak/main/java/com/thirtydays/timeruler/indicator/RangeIndicator.kt:300-305 | a target left of the start offset goes to the start offset; otherwise it is capped at the maximum position |
| LegacyRangeIndicators.LastItemPosition | timeruler/srcbak/main/java/com/thirtydays/timeruler/indicator/RangeIndicator.kt:284-286 | the last of n ≥ 1 items sits on a non-negative tick |
| LegacyRangeIndicators.MaxItemPosition | timeruler/srcbak/main/java/com/thirtydays/timeruler/indicator/RangeIndicator.kt:284-295 | in normal mode the bound is the last item's screen position; in full mode it is at or right of the start offset |
| LegacyRangeIndicators.RangeIndicator.constructor | timeruler/srcbak/main/java/com/thirtydays/timeruler/indicator/RangeIndicator.kt:46-90 | two hidden markers at position 0, A drawn left of its tick and B right of it, each with its own touch area |
| LegacyRangeIndicators.RangeIndicator.ATarget | timeruler/srcbak/main/java/com/thirtydays/timeruler/indicator/RangeIndicator.kt:325-337 | where A is sent in normal mode is never left of the ruler's start while the view is scrolled right |
| LegacyRangeIndicators.RangeIndicator.BTarget | timeruler/srcbak/main/java/com/thirtydays/timeruler/indicator/RangeIndicator.kt:343-356 | where B is sent in normal mode is never left of the ruler's start |
| LegacyRangeIndicators.RangeIndicator.IsTouched | timeruler/srcbak/main/java/com/thirtydays/timeruler/indicator/RangeIndicator.kt:243-260 | with only A shown only A is tried; otherwise a hit on either counts, and when both are hit B is taken exactly when the two share a position that is not the last item's |
| LegacyRangeIndicators.RangeIndicator.UpdateIndicatorAPosition | timeruler/srcbak/main/java/com/thirtydays/timeruler/indicator/RangeIndicator.kt:325-337 | A settles where `SettledTimePosition` puts its clamped target, never after a shown B and otherwise never after the last item; the listener is due exactly when its position changed |
| LegacyRangeIndicators.RangeIndicator.UpdateIndicatorBPosition | timeruler/srcbak/main/java/com/thirtydays/timeruler/indicator/RangeIndicator.kt:343-356 | B settles where `SettledTimePosition` puts its clamped target, between A and the last item; the listener is due exactly when its position changed |
| LegacyRangeIndicators.RangeIndicator.UpdatePosition | timeruler/srcbak/main/java/com/thirtydays/timeruler/indicator/RangeIndicator.kt:311-319 | the touched marker settles (A before B), the other is left unchanged and the touch flags are cleared; with neither touched nothing is reported |
| LegacyRangeIndicators.RangeIndicator.MoveTo | timeruler/srcbak/main/java/com/thirtydays/timeruler/indicator/RangeIndicator.kt:386-412 | the touched marker (A before B) follows the drag, A capped at B or at the last item and B at its own target; the other marker is left unchanged |
| LegacyRangeIndicators.RangeIndicator.SetDragging | timeruler/srcbak/main/java/com/thirtydays/timeruler/indicator/RangeIndicator.kt:418-428 | the drag is recorded and the touched marker (A before B) is marked dragged; ending a drag releases both |
| LegacyRangeIndicators.RangeIndicator.SetATime | timeruler/srcbak/main/java/com/thirtydays/timeruler/indicator/RangeIndicator.kt:438-446 | A is shown at the position (truncated in normal mode, exact in full mode), the other mode's position kept |
| LegacyRangeIndicators.RangeIndicator.SetBTime | timeruler/srcbak/main/java/com/thirtydays/timeruler/indicator/RangeIndicator.kt:452-464 | B is shown at the position when A is shown; otherwise nothing changes |
| LegacyRangeIndicators.RangeIndicator.Reset | timeruler/srcbak/main/java/com/thirtydays/timeruler/indicator/RangeIndicator.kt:469-475 | both markers hidden at normal position 0 |
| LegacyRangeIndicators.RangeIndicator.SetIndicatorATimePosition | timeruler/srcbak/main/java/com/thirtydays/timeruler/indicator/RangeIndicator.kt:503-505 | A's normal position is set |
| LegacyRangeIndicators.RangeIndicator.SetIndicatorBTimePosition | timeruler/srcbak/main/java/com/thirtydays/timeruler/indicator/RangeIndicator.kt:518-520 | B's normal position is set |
| LegacyRangeIndicators.RangeIndicator.SetIndicatorATimePositionInFullMode | timeruler/srcbak/main/java/com/thirtydays/timeruler/indicator/RangeIndicator.kt:533-536 | A's full-mode position is set and its screen position is that plus the start offset |
| LegacyRangeIndicators.RangeIndicator.SetIndicatorBTimePositionInFullModeAsWritten | timeruler/srcbak/main/java/com/thirtydays/timeruler/indicator/RangeIndicator.kt:549-552 | as written: B's full-mode position is set but A's screen position receives it, B's screen position is left stale |
| LegacyRangeIndicators.RangeIndicator.SetIndicatorBTimePositionInFullMode | timeruler/srcbak/main/java/com/thirtydays/timeruler/indicator/RangeIndicator.kt:549-552 | as intended: B's full-mode and screen positions are set and A's screen position is left alone |
| LegacyRangeIndicators.RangeIndicator.RefreshOnDrawInFullMode | timeruler/srcbak/main/java/com/thirtydays/timeruler/indicator/RangeIndicator.kt:226-238 | each shown, undragged marker is redrawn at its full-mode position plus the start offset |
| LegacyRangeIndicators.BoundedByTick | timeruler/srcbak/main/java/com/thirtydays/timeruler/indicator/RangeIndicator.kt:325-356 | a target at or left of a tick's screen position settles at or before that tick |
| LegacyRangeIndicators.BoundsTick | timeruler/srcbak/main/java/com/thirtydays/timeruler/indicator/RangeIndicator.kt:343-356 | a target at or right of a tick's screen position settles at or after that tick |
| LegacyTimeRulers.TimeItemsOf | timeruler/srcbak/main/java/com/thirtydays/timeruler/TimeRuler.kt:1896-1902 | the ruler's timeline items are the TimeItems of its circles, one per circle, in order |
| LegacyTimeRulers.SlotIndex | timeruler/srcbak/main/java/com/thirtydays/timeruler/TimeRuler.kt:1018-1027 | with the circles on consecutive ticks, the index found for a position is the circle on exactly that position, or -1 when no circle is on it |
| LegacyTimeRulers.CurrentTimePosition | timeruler/srcbak/main/java/com/thirtydays/timeruler/TimeRuler.kt:1032-1036 | as intended: the playhead's normal position, or in full mode the conversion of its full-mode position, which is a tick when that position is on the 200 ms grid |
| LegacyTimeRulers.CurrentTimePositionAfterSwitch | timeruler/srcbak/main/java/com/thirtydays/timeruler/TimeRuler.kt:1032-1036 | after a switch to full mode the corrected lookup finds the tick the playhead was on |
| LegacyTimeRulers.CurrentTimePositionCounterexample | timeruler/srcbak/main/java/com/thirtydays/timeruler/TimeRuler.kt:1032-1036 | for a 400 px screen with 50 px offsets and the playhead on position 100, the lookup as written converts the normal position as though it were a full-mode one and asks for position 100000 instead of 100 |
| LegacyTimeRulers.ConvertToTimePositionNonNegative | timeruler/srcbak/main/java/com/thirtydays/timeruler/TimeRuler.kt:1200-1205 | a non-negative full-mode position converts to a non-negative normal position |
| LegacyTimeRulers.SwitchKeepsTime | timeruler/srcbak/main/java/com/thirtydays/timeruler/TimeRuler.kt:1151-1173 | switching to full mode keeps the time the playhead reports: the full-mode time of the converted position is the normal-mode time of the tick |
| LegacyTimeRulers.TickScreenSettles | timeruler/srcbak/main/java/com/thirtydays/timeruler/indicator/TimeIndicator.kt:188-233 | the screen position of a tick on the ruler settles back on that tick |
| LegacyTimeRulers.NextTickFromDrawnSettles | timeruler/srcbak/main/java/com/thirtydays/timeruler/TimeRuler.kt:897-911 | one segment right of where the playhead is drawn settles on the next tick whenever that tick is on the ruler |
| LegacyTimeRulers.NextTickDrawnBeforeStart | timeruler/srcbak/main/java/com/thirtydays/timeruler/TimeRuler.kt:897-911 | the same while the view is scrolled left of the ruler's start |
| LegacyTimeRulers.NextTickDrawnAfterStart | timeruler/srcbak/main/java/com/thirtydays/timeruler/TimeRuler.kt:897-911 | the same while the view is scrolled right of the ruler's start, and the touch lies on the ruler |
| LegacyTimeRulers.WithinLastTickByTime | timeruler/srcbak/main/java/com/thirtydays/timeruler/TimeRuler.kt:1824-1829 | comparing the full-mode playhead with the last item's full-mode position is the same as comparing their times |
| LegacyTimeRulers.MakePads | timeruler/srcbak/main/java/com/thirtydays/timeruler/TimeRuler.kt:1526-1535 | fresh empty circles, one per tick from the first free tick up to the new item's, each on its own tick |
| LegacyTimeRulers.TimeItemsOfInsert | timeruler/srcbak/main/java/com/thirtydays/timeruler/TimeRuler.kt:1567 | inserting a circle at index k inserts its TimeItem at k in the timeline items |
| LegacyTimeRulers.TimeItemsOfAppend | timeruler/srcbak/main/java/com/thirtydays/timeruler/TimeRuler.kt:1526-1538 | padding with empty circles and appending gives the timeline items with the new item at index k and empty items before it |
| LegacyTimeRulers.TimeItemsOfRemove | timeruler/srcbak/main/java/com/thirtydays/timeruler/TimeRuler.kt:1678 | removing the circle at index k removes the TimeItem at k |
| LegacyTimeRulers.TimeRuler.PlayheadMillisecond | timeruler/srcbak/main/java/com/thirtydays/timeruler/TimeRuler.kt:475-493 | the time reported for the playhead is on the 200 ms grid, not negative for a playhead on the ruler, and in normal mode is its tick index times 200 ms |
| LegacyTimeRulers.TimeRuler.PlayheadIndex | timeruler/srcbak/main/java/com/thirtydays/timeruler/TimeRuler.kt:1520 | the playhead's tick index; with no hole in the items the circle at that index is on the playhead's position |
| LegacyTimeRulers.TimeRuler.constructor | timeruler/srcbak/main/java/com/thirtydays/timeruler/TimeRuler.kt:368-404 | a new ruler is in normal mode, scrolled so the ruler's start sits at the start offset, with no items, nothing running and the playhead at 0; the range markers and the play marker are hidden |
| LegacyTimeRulers.TimeRuler.Emit | timeruler/srcbak/main/java/com/thirtydays/timeruler/TimeRuler.kt:1918-1966 | the listener calls are appended, in order, to the record of what the listeners heard |
| LegacyTimeRulers.TimeRuler.ComputeTime | timeruler/srcbak/main/java/com/thirtydays/timeruler/TimeRuler.kt:1336-1353 | the scroll offset is clamped to the ruler's bounds and the left-edge tick brackets a non-negative offset |
| LegacyTimeRulers.TimeRuler.UpdatePlayhead | timeruler/srcbak/main/java/com/thirtydays/timeruler/indicator/TimeIndicator.kt:188-233 | the playhead settles on `SettledTimePosition` (normal mode) or the snapped grid position (full mode), the other mode's position kept, and the time listener hears the new time and item exactly when the position or time changed |
| LegacyTimeRulers.TimeRuler.OnRangeChanged | timeruler/srcbak/main/java/com/thirtydays/timeruler/TimeRuler.kt:503-518 | a playhead left of A is moved onto A, otherwise one right of a shown B onto B, in either mode; with the playhead inside the range nothing changes and nobody is told |
| LegacyTimeRulers.TimeRuler.OnRangeChangedInNormalMode | timeruler/srcbak/main/java/com/thirtydays/timeruler/TimeRuler.kt:505-510 | in normal mode the playhead lands exactly on A's or B's tick, its full-mode position kept |
| LegacyTimeRulers.TimeRuler.OnRangeChangedInFullMode | timeruler/srcbak/main/java/com/thirtydays/timeruler/TimeRuler.kt:511-516 | in full mode the playhead snaps to the grid position at A's or B's full-mode position |
| LegacyTimeRulers.TimeRuler.RangeCorrectionLands | timeruler/srcbak/main/java/com/thirtydays/timeruler/TimeRuler.kt:505-510 | the screen point the playhead is sent to lies on the ruler and settles exactly on A's or B's tick |
| LegacyTimeRulers.TimeRuler.TickScreenSettlesWhenOnRuler | timeruler/srcbak/main/java/com/thirtydays/timeruler/indicator/TimeIndicator.kt:188-233 | with the ruler's current scroll, the screen position of a tick on the ruler settles on that tick |
| LegacyTimeRulers.TimeRuler.GetTimeIndex | timeruler/srcbak/main/java/com/thirtydays/timeruler/TimeRuler.kt:1018-1027 | -1 or the last index whose circle is on the position; with the circles on consecutive ticks it is `SlotIndex` |
| LegacyTimeRulers.TimeRuler.GetCurrentTimeIndex | timeruler/srcbak/main/java/com/thirtydays/timeruler/TimeRuler.kt:1032-1036 | the index of the circle under the playhead by the corrected lookup, and in normal mode the playhead's tick index when that circle exists, else -1 |
| LegacyTimeRulers.TimeRuler.TouchTargetWithinRange | timeruler/srcbak/main/java/com/thirtydays/timeruler/TimeRuler.kt:1465-1483 | a tap's target stays on the ruler and, in normal mode, settles no earlier than a shown A and no later than a shown B |
| LegacyTimeRulers.TimeRuler.UpdateTimeIndicatorPosition | timeruler/srcbak/main/java/com/thirtydays/timeruler/TimeRuler.kt:1465-1483 | a tap moves the playhead inside a shown A..B range, or to the settled tap position when there is no range, and the time listener hears it exactly when it moved |
| LegacyTimeRulers.TimeRuler.ClickEvents | timeruler/srcbak/main/java/com/thirtydays/timeruler/TimeRuler.kt:1424-1435 | at most one click is reported, exactly when the tapped circle exists, is hit and is the one selected before, carrying its index and TimeItem |
| LegacyTimeRulers.TimeRuler.ProcessTimeItemClick | timeruler/srcbak/main/java/com/thirtydays/timeruler/TimeRuler.kt:1424-1435 | the click listener hears exactly `ClickEvents` |
| LegacyTimeRulers.TimeRuler.SettleAndLocate | timeruler/srcbak/main/java/com/thirtydays/timeruler/TimeRuler.kt:1288-1289 | the playhead settles at the tap and the circle under it is looked up by `SlotIndex` |
| LegacyTimeRulers.TimeRuler.Tap | timeruler/srcbak/main/java/com/thirtydays/timeruler/TimeRuler.kt:1286-1294 | ignored while playing or while an add or delete runs (line 1226); otherwise the playhead settles, the click is reported by `ClickEvents` and the circle under the playhead becomes the last selected |
| LegacyTimeRulers.TimeRuler.TapWhenIdle | timeruler/srcbak/main/java/com/thirtydays/timeruler/TimeRuler.kt:1286-1294 | the idle path of a tap: position event, then click event, then the selection is remembered |
| LegacyTimeRulers.TimeRuler.ReleasePlayhead | timeruler/srcbak/main/java/com/thirtydays/timeruler/TimeRuler.kt:1280-1284 | releasing a dragged playhead ends the drag, settles it and remembers the circle under it; ignored while playing or operating |
| LegacyTimeRulers.TimeRuler.MoveTimeIndicatorToCenter | timeruler/srcbak/main/java/com/thirtydays/timeruler/TimeRuler.kt:873-917 | a playhead at or past the screen centre scrolls one segment on; the playhead then steps to the next tick unless it is at the ruler's end, where nothing is reported |
| LegacyTimeRulers.TimeRuler.ScrollTo | timeruler/srcbak/main/java/com/thirtydays/timeruler/TimeRuler.kt:886-893 | the scroll animation ends with the view at the requested offset, clamped as `computeTime` clamps it |
| LegacyTimeRulers.TimeRuler.StepPlayheadTo | timeruler/srcbak/main/java/com/thirtydays/timeruler/TimeRuler.kt:897-911 | at the end of the step animation the playhead lands on tick t (under the start-offset proviso) and at most one change of its time is reported |
| LegacyTimeRulers.TimeRuler.ScrollPastCenter | timeruler/srcbak/main/java/com/thirtydays/timeruler/TimeRuler.kt:878-893 | the scroll lands one segment past the playhead's distance from the centre, clamped |
| LegacyTimeRulers.TimeRuler.StepUnlessAtEnd | timeruler/srcbak/main/java/com/thirtydays/timeruler/TimeRuler.kt:897-911 | the playhead moves to the next tick unless it is already on the ruler's last tick |
| LegacyTimeRulers.TimeRuler.AppendPadded | timeruler/srcbak/main/java/com/thirtydays/timeruler/TimeRuler.kt:1524-1538 | items beyond the list's end are padded with fresh empty circles up to the new item's tick, which then comes last; the old items are kept |
| LegacyTimeRulers.TimeRuler.ShiftItemsRight | timeruler/srcbak/main/java/com/thirtydays/timeruler/TimeRuler.kt:1551-1564 | every circle from the index on is one segment later and the circles before it stay |
| LegacyTimeRulers.TimeRuler.InsertShifted | timeruler/srcbak/main/java/com/thirtydays/timeruler/TimeRuler.kt:1551-1567 | the new circle sits at index k and the circles from k on are shifted one tick right, so the circles stay on consecutive ticks |
| LegacyTimeRulers.TimeRuler.AddTimeItem | timeruler/srcbak/main/java/com/thirtydays/timeruler/TimeRuler.kt:1503-1579 | ignored while playing, in full mode, when full or during another add or delete; otherwise the new TimeItem is inserted at the playhead's tick index (padding with empty items when past the end) and its fade-in starts |
| LegacyTimeRulers.TimeRuler.AddAppended | timeruler/srcbak/main/java/com/thirtydays/timeruler/TimeRuler.kt:1524-1547 | appending at the playhead's tick adds the item at that index and the playhead steps to the next tick when it is on the ruler |
| LegacyTimeRulers.TimeRuler.AppendAndShow | timeruler/srcbak/main/java/com/thirtydays/timeruler/TimeRuler.kt:1524-1546 | the item is added at index k after the pads and its fade-in starts |
| LegacyTimeRulers.TimeRuler.AddInserted | timeruler/srcbak/main/java/com/thirtydays/timeruler/TimeRuler.kt:1549-1577 | inserting at the playhead's tick adds the item at that index and a shown A..B range containing the tick grows by one segment at B |
| LegacyTimeRulers.TimeRuler.InsertAndShow | timeruler/srcbak/main/java/com/thirtydays/timeruler/TimeRuler.kt:1551-1575 | the item is inserted at index k on its own tick and its fade-in starts |
| LegacyTimeRulers.TimeRuler.StartShowing | timeruler/srcbak/main/java/com/thirtydays/timeruler/indicator/CircleIndicator.kt:242-251 | an add or delete is now running and the new circle fades in at its screen position |
| LegacyTimeRulers.TimeRuler.CheckRangeIndicatorWhenAdd | timeruler/srcbak/main/java/com/thirtydays/timeruler/TimeRuler.kt:1410-1418 | an add inside a shown A..B range (both ends included) moves B one segment later; otherwise B, the playhead and the listeners are untouched |
| LegacyTimeRulers.TimeRuler.MoveRangeAToTick | timeruler/srcbak/main/java/com/thirtydays/timeruler/TimeRuler.kt:1386 | with only A shown, A settles on the tick it is sent to when that tick is on the ruler and not after the last item; B is untouched |
| LegacyTimeRulers.TimeRuler.SettleRangeA | timeruler/srcbak/main/java/com/thirtydays/timeruler/TimeRuler.kt:1386 | the same, through the range marker's own `updateIndicatorAPosition` |
| LegacyTimeRulers.TimeRuler.MoveRangeBToTick | timeruler/srcbak/main/java/com/thirtydays/timeruler/TimeRuler.kt:1398-1401 | B settles on the tick it is sent to when that tick lies between A and the last item; A is untouched |
| LegacyTimeRulers.TimeRuler.SettleRangeB | timeruler/srcbak/main/java/com/thirtydays/timeruler/TimeRuler.kt:1398-1401 | the same, through the range marker's own `updateIndicatorBPosition` |
| LegacyTimeRulers.TimeRuler.FinishShow | timeruler/srcbak/main/java/com/thirtydays/timeruler/TimeRuler.kt:1540-1545 | the add ends: nothing is running, the listeners hear `onAdd` then `onSizeChanged` with the new count, and the circle is drawn selected exactly when under the playhead |
| LegacyTimeRulers.TimeRuler.Delete | timeruler/srcbak/main/java/com/thirtydays/timeruler/TimeRuler.kt:1644-1690 | ignored while playing, in full mode, past the last item or during another add or delete; otherwise the circle under the playhead starts fading out, the list unchanged until the fade ends |
| LegacyTimeRulers.TimeRuler.DeleteAt | timeruler/srcbak/main/java/com/thirtydays/timeruler/TimeRuler.kt:1656-1676 | after the range correction, every circle after k is one segment earlier, those before stay, and the circle at k starts fading out; the list itself is unchanged until the fade ends |
| LegacyTimeRulers.TimeRuler.StartDeleting | timeruler/srcbak/main/java/com/thirtydays/timeruler/TimeRuler.kt:1661-1676 | the circle at k is recorded as the one being removed and starts fading out, and every circle after it is one segment earlier |
| LegacyTimeRulers.TimeRuler.ShiftItemsLeft | timeruler/srcbak/main/java/com/thirtydays/timeruler/TimeRuler.kt:1661-1674 | every circle from the index on is one segment earlier and the circles before it stay |
| LegacyTimeRulers.TimeRuler.CheckRangeIndicatorWithDelete | timeruler/srcbak/main/java/com/thirtydays/timeruler/TimeRuler.kt:1375-1404 | deleting the first item, or the one item an A..B range spans, clears the range; deleting the last item under a lone A pulls A back a tick; deleting inside A..B pulls B back a tick; otherwise nothing changes |
| LegacyTimeRulers.TimeRuler.PullABackOnDelete | timeruler/srcbak/main/java/com/thirtydays/timeruler/TimeRuler.kt:1382-1386 | A moves one tick earlier |
| LegacyTimeRulers.TimeRuler.PullBBackOnDelete | timeruler/srcbak/main/java/com/thirtydays/timeruler/TimeRuler.kt:1394-1401 | B moves one tick earlier |
| LegacyTimeRulers.TimeRuler.PullBBackLeavesRange | timeruler/srcbak/main/java/com/thirtydays/timeruler/TimeRuler.kt:1389-1401 | when B is pulled back it is at least a tick after A, so the range never inverts |
| LegacyTimeRulers.TimeRuler.FinishDelete | timeruler/srcbak/main/java/com/thirtydays/timeruler/TimeRuler.kt:1677-1688 | the delete ends: the circle leaves the list, its TimeItem leaves the items, and the listeners hear `onDelete`, the selection at the same index (or none) and `onSizeChanged` |
| LegacyTimeRulers.TimeRuler.DropDeleted | timeruler/srcbak/main/java/com/thirtydays/timeruler/TimeRuler.kt:1678-1679 | the removed circle leaves the list and nothing is running any more |
| LegacyTimeRulers.TimeRuler.RemoveItem | timeruler/srcbak/main/java/com/thirtydays/timeruler/TimeRuler.kt:1678 | the list loses exactly the circle at the recorded index |
| LegacyTimeRulers.TimeRuler.Reset | timeruler/srcbak/main/java/com/thirtydays/timeruler/TimeRuler.kt:1745-1763 | ignored while playing; otherwise no items, nothing running, the playhead on 0, the range hidden and the scroll back at the ruler's start |
| LegacyTimeRulers.TimeRuler.ResetMillisecond | timeruler/srcbak/main/java/com/thirtydays/timeruler/TimeRuler.kt:1754 | the time reported when the playhead is sent to screen 0 on reset: on the 200 ms grid, and 0 when the start offset is at most half a segment |
| LegacyTimeRulers.TimeRuler.ClearItems | timeruler/srcbak/main/java/com/thirtydays/timeruler/TimeRuler.kt:1752-1756 | the list is empty, nothing is running and the scroll is back at the ruler's start |
| LegacyTimeRulers.TimeRuler.ResetPlayhead | timeruler/srcbak/main/java/com/thirtydays/timeruler/TimeRuler.kt:1754-1755 | the playhead is settled at screen 0 and then put on position 0 |
| LegacyTimeRulers.TimeRuler.ClearRangeAndScroll | timeruler/srcbak/main/java/com/thirtydays/timeruler/TimeRuler.kt:1757-1761 | the range is hidden and the scroll offset is clamped |
| LegacyTimeRulers.TimeRuler.PlayheadWithinItemsByTime | timeruler/srcbak/main/java/com/thirtydays/timeruler/TimeRuler.kt:1815-1830 | the guard of the range setters admits exactly a playhead on an existing circle in normal mode, and a playhead no later in time than the last item in full mode |
| LegacyTimeRulers.TimeRuler.SetRangeATime | timeruler/srcbak/main/java/com/thirtydays/timeruler/TimeRuler.kt:1811-1834 | ignored while playing or outside the items; otherwise A is shown on the playhead's position in the current mode and the range listener hears `onSetA` |
| LegacyTimeRulers.TimeRuler.SetRangeBTime | timeruler/srcbak/main/java/com/thirtydays/timeruler/TimeRuler.kt:1836-1859 | ignored while playing or outside the items; otherwise B is shown on the playhead's position when A is shown, and the range listener hears `onSetB` either way |
| LegacyTimeRulers.TimeRuler.ResetTimeRange | timeruler/srcbak/main/java/com/thirtydays/timeruler/TimeRuler.kt:1864-1870 | ignored while playing; otherwise both markers hidden at 0 and the range listener hears `onReset` |
| LegacyTimeRulers.TimeRuler.SetFullMode | timeruler/srcbak/main/java/com/thirtydays/timeruler/TimeRuler.kt:1598-1631 | ignored during an add or delete; otherwise the mode switches, positions are converted so the playhead keeps its time, and switching back recentres the view on the playhead |
| LegacyTimeRulers.TimeRuler.ConvertTimeToFullMode | timeruler/srcbak/main/java/com/thirtydays/timeruler/TimeRuler.kt:1151-1173 | the playhead, play marker and range markers get the full-mode positions of their ticks, and the playhead's time is unchanged |
| LegacyTimeRulers.TimeRuler.ConvertTimeToNormalMode | timeruler/srcbak/main/java/com/thirtydays/timeruler/TimeRuler.kt:1178-1186 | the playhead and range markers get the normal positions of their full-mode positions, and the view is scrolled to centre the playhead |
| LegacyTimeRulers.TimeRuler.GetCurrentTimeItem | timeruler/srcbak/main/java/com/thirtydays/timeruler/TimeRuler.kt:1636-1639 | the TimeItem under the playhead when there is one, and only ever an item of the ruler |
| LegacyTimeRulers.TimeRuler.GetTimeItems | timeruler/srcbak/main/java/com/thirtydays/timeruler/TimeRuler.kt:1896-1902 | the items of all circles, in order |
| LegacyTimeRulers.TimeRuler.CallbackStart | timeruler/srcbak/main/java/com/thirtydays/timeruler/TimeRuler.kt:1008-1013 | `onStart` is heard at most once per playback session |
| LegacyTimeRulers.TimeRuler.Play | timeruler/srcbak/main/java/com/thirtydays/timeruler/TimeRuler.kt:1696-1715 | ignored with no items or while playing; otherwise a session starts from the playhead (or from 0 when it is past the last item), playing at once when the start is at the screen centre and scrolling there first otherwise |
| LegacyTimeRulers.TimeRuler.StartSession | timeruler/srcbak/main/java/com/thirtydays/timeruler/TimeRuler.kt:1706-1709 | the session flags: playing, repeat and animator as given, `onStart` not yet heard |
| LegacyTimeRulers.TimeRuler.PlayStart | timeruler/srcbak/main/java/com/thirtydays/timeruler/TimeRuler.kt:927-932 | playback starts at the playhead, or at 0 when the playhead is past the last item |
| LegacyTimeRulers.TimeRuler.PlayStartHasItem | timeruler/srcbak/main/java/com/thirtydays/timeruler/TimeRuler.kt:927-932 | the start of playback is a tick whose circle exists |
| LegacyTimeRulers.TimeRuler.PreparePlay | timeruler/srcbak/main/java/com/thirtydays/timeruler/TimeRuler.kt:923-968 | the play marker goes to the start; playback stops at B's circle or, with no B, at the last item (the range is cleared); it starts at once at the centre and otherwise scrolls there with playback pending |
| LegacyTimeRulers.TimeRuler.SetPlayRange | timeruler/srcbak/main/java/com/thirtydays/timeruler/TimeRuler.kt:924-940 | start and stop of playback as in `PreparePlay`, before any scrolling |
| LegacyTimeRulers.TimeRuler.ChooseStop | timeruler/srcbak/main/java/com/thirtydays/timeruler/TimeRuler.kt:928-938 | the stop index is B's circle when B is shown and the last item otherwise, the range then cleared |
| LegacyTimeRulers.TimeRuler.StartOrCenter | timeruler/srcbak/main/java/com/thirtydays/timeruler/TimeRuler.kt:943-966 | a start exactly at the screen centre plays at once; anywhere else the view scrolls there first with playback pending |
| LegacyTimeRulers.TimeRuler.DoPlay | timeruler/srcbak/main/java/com/thirtydays/timeruler/TimeRuler.kt:1042-1069 | the play marker replaces the playhead on screen, `onStart` is heard once, and the animation or the stepping timer starts |
| LegacyTimeRulers.TimeRuler.PlayInFullMode | timeruler/srcbak/main/java/com/thirtydays/timeruler/TimeRuler.kt:973-1002 | full-mode playback starts at the playhead, or at 0 when it is past the last item, with the play marker shown and `onStart` heard once |
| LegacyTimeRulers.TimeRuler.FollowPlayhead | timeruler/srcbak/main/java/com/thirtydays/timeruler/TimeRuler.kt:263-265 | the view scrolls forward just enough to keep the play marker at or left of the screen centre |
| LegacyTimeRulers.TimeRuler.PlayTick | timeruler/srcbak/main/java/com/thirtydays/timeruler/TimeRuler.kt:243-290 | as intended: each tick steps to the next item and reports its time and TimeItem; on the stop item, or past it, a non-repeating session ends and `onStop` is heard once, and the reset is queued |
| LegacyTimeRulers.TimeRuler.PlayTickAsWritten | timeruler/srcbak/main/java/com/thirtydays/timeruler/TimeRuler.kt:243-290 | as written: past the stop item the reset is queued but the session is not ended and nobody hears `onStop` |
| LegacyTimeRulers.TimeRuler.EndOfPlay | timeruler/srcbak/main/java/com/thirtydays/timeruler/TimeRuler.kt:272-283 | the stepping ends and the reset is queued; without repeat the session ends, the playhead is shown again and `onStop` is heard |
| LegacyTimeRulers.TimeRuler.StepTo | timeruler/srcbak/main/java/com/thirtydays/timeruler/TimeRuler.kt:260-286 | the play marker and the playhead move onto item i, which is reported with its time; the stepping continues until the stop item |
| LegacyTimeRulers.TimeRuler.PlaceStepped | timeruler/srcbak/main/java/com/thirtydays/timeruler/TimeRuler.kt:260-265 | play marker and playhead on tick i, the view following |
| LegacyTimeRulers.TimeRuler.RunQueuedReset | timeruler/srcbak/main/java/com/thirtydays/timeruler/TimeRuler.kt:1085-1106 | after playback the playhead returns to A (or to 0 without a range), its time and item are reported and the view scrolls back |
| LegacyTimeRulers.TimeRuler.FinishCentering | timeruler/srcbak/main/java/com/thirtydays/timeruler/TimeRuler.kt:530-553 | when the scroll ends pending playback starts (in full mode `onStop` is heard instead), a repeating session prepares again, and otherwise the playhead is shown again |
| LegacyTimeRulers.TimeRuler.RunPreparePost | timeruler/srcbak/main/java/com/thirtydays/timeruler/TimeRuler.kt:540-546 | the posted repeat prepares playback again, or in full mode the listener hears `onStop` |
| LegacyTimeRulers.TimeRuler.StopPlay | timeruler/srcbak/main/java/com/thirtydays/timeruler/TimeRuler.kt:1720-1740 | ignored when not playing; otherwise the session ends; the animation is cancelled, or the stepping stops with the playhead shown again, or in full mode `onStop` is heard |
| TimeRulers.TimeItemsOfInsert | timeruler/src/main/java/com/cxj/timeruler/TimeRuler.kt:1595 | inserting a circle at index k inserts its TimeItem at k in the timeline items |
| TimeRulers.TimeItemsOfAppend | timeruler/src/main/java/com/cxj/timeruler/TimeRuler.kt:1553-1565 | padding with empty circles and appending gives the timeline items with the new item at index k and empty items before it |
| TimeRulers.TimeItemsOfRemove | timeruler/src/main/java/com/cxj/timeruler/TimeRuler.kt:1756 | removing the circle at index k removes the TimeItem at k |
| TimeRulers.TimeRuler.StepPlayheadWithScroll | timeruler/src/main/java/com/cxj/timeruler/TimeRuler.kt:929-946 | past the screen centre the playhead moves one segment and then settles, landing on the next tick with that tick's time; on the last tick nothing moves and nobody is told |
| TimeRulers.TimeRuler.StepPlayhead | timeruler/src/main/java/com/cxj/timeruler/TimeRuler.kt:947-950 | before the screen centre the playhead is settled one segment to the right, which from a tick is the next tick with its time |
| TimeRulers.TimeRuler.AppendAndShow | timeruler/src/main/java/com/cxj/timeruler/TimeRuler.kt:1551-1573 | pads and appends so the new TimeItem sits at index k, and its fade-in starts; items on the time grid stay on it |
| TimeRulers.TimeRuler.AppendItem | timeruler/src/main/java/com/cxj/timeruler/TimeRuler.kt:1551-1565 | the new TimeItem is at index k after the pads, and the items stay on the time grid |
| TimeRulers.TimeRuler.InsertAndShow | timeruler/src/main/java/com/cxj/timeruler/TimeRuler.kt:1577-1603 | shifts and inserts so the new TimeItem sits at index k, and its fade-in starts; items on the time grid stay on it |
| TimeRulers.TimeRuler.InsertItem | timeruler/src/main/java/com/cxj/timeruler/TimeRuler.kt:1577-1595 | the new TimeItem is at index k with the later items one tick later, and the items stay on the time grid |
| TimeRulers.TimeRuler.StartDeleting | timeruler/src/main/java/com/cxj/timeruler/TimeRuler.kt:1739-1754 | the items after k are one segment earlier, the others stay, and the item at k is recorded as the one being removed |
| TimeRulers.TimeRuler.DropDeleted | timeruler/src/main/java/com/cxj/timeruler/TimeRuler.kt:1756-1757 | the removed item leaves the list and its TimeItem leaves the items; the delete is over and nobody has been told yet |
| TimeRulers.TimeRuler.MoveRangeA | timeruler/src/main/java/com/cxj/timeruler/TimeRuler.kt:1415 | A moves to the snapped time of its clamped target |
| TimeRulers.TimeRuler.MoveRangeB | timeruler/src/main/java/com/cxj/timeruler/TimeRuler.kt:1424-1427 | B moves to the snapped time of its clamped target |
| TimeRulers.TimeRuler.ReleaseRange | timeruler/src/main/java/com/cxj/timeruler/TimeRuler.kt:1277-1280 | releasing a dragged range marker ends the drag and clears which marker was touched |
| TimeRulers.TimeRuler.ReleasePlayhead | timeruler/src/main/java/com/cxj/timeruler/TimeRuler.kt:1281-1285 | releasing a dragged playhead ends the drag, settles it on the snapped time of the touch, and its tick becomes the latest touched index |
| TimeRulers.TimeRuler.Tap | timeruler/src/main/java/com/cxj/timeruler/TimeRuler.kt:1289-1293 | after a tap settles the playhead, its tick becomes the latest touched index and the click listener hears exactly `ClickEvents` |
| TimeRulers.TimeRuler.ShowPlayIndicator | timeruler/src/main/java/com/cxj/timeruler/TimeRuler.kt:1117-1118 | exactly one of the play indicator and the playhead is shown |
| TimeRulers.TimeRuler.PlaceIndicators | timeruler/src/main/java/com/cxj/timeruler/TimeRuler.kt:1167-1171 | the play indicator and the playhead both at the position, each with that position's time |
| TimeRulers.TimeRuler.ArmPlayer | timeruler/src/main/java/com/cxj/timeruler/TimeRuler.kt:1116-1130 | the play animation runs from the truncated offset over the distance to play, or else the stepped player's first message is queued |
| TimeRulers.TimeRuler.AnnouncePlay | timeruler/src/main/java/com/cxj/timeruler/TimeRuler.kt:1117-1128 | the play indicator replaces the playhead and `onStart` is heard at most once per session |
| TimeRulers.TimeRuler.PrepareFrom | timeruler/src/main/java/com/cxj/timeruler/TimeRuler.kt:957-1002 | from a start with an item: playback stops at B's item or, with no B, at the last item (the range cleared); at the screen centre it starts at once, anywhere else the view scrolls there first |
| TimeRulers.TimeRuler.ResetAndStop | timeruler/src/main/java/com/cxj/timeruler/TimeRuler.kt:258-262 | the playhead goes back to A (or the ruler's start without a range), the session ends and `onStop` is heard |
| TimeRulers.TimeRuler.ScrollToCentered | timeruler/src/main/java/com/cxj/timeruler/TimeRuler.kt:556-560 | the centring scroll lands on its target, clamped to the ruler |
| TimeRulers.TimeRuler.AfterCentering | timeruler/src/main/java/com/cxj/timeruler/TimeRuler.kt:561-587 | pending playback starts, a repeat posts another `preparePlay`, and otherwise the playhead is shown again |
| TimeRulers.TimeRuler.AdvancePlayTo | timeruler/src/main/java/com/cxj/timeruler/TimeRuler.kt:268-280 | both indicators move onto item i, the view follows so they stay at or left of the centre, and item i's time is reported; on the time grid that is tick i |
| TimeRulers.TimeRuler.PostStepEnd | timeruler/src/main/java/com/cxj/timeruler/TimeRuler.kt:282-295 | the stepping stops and the end of playback, or the repeat, is posted; without repeat the playhead is shown again |
| TimeRulers.TimeRuler.SettleOnFixTarget | timeruler/src/main/java/com/cxj/timeruler/TimeRuler.kt:876-886 | the corrective animation leaves both indicators on the target tick, the playhead reading its time |
| TimeRulers.TimeRuler.FinishPlayAnimation | timeruler/src/main/java/com/cxj/timeruler/TimeRuler.kt:636-662 | a play animation that ran out posts its end; a corrective one leaves the playhead on the target tick, shown, and the listener hears `onStop` |
| TimeRulers.TimeRuler.StopAnimator | timeruler/src/main/java/com/cxj/timeruler/TimeRuler.kt:663-667 | a cancelled animation off a tick posts the correction to `FixTargetIndex`; on a tick the playhead is shown again and `onStop` is heard |
| TimeRulers.TimeRuler.RepeatAfterAnimation | timeruler/src/main/java/com/cxj/timeruler/TimeRuler.kt:641-647 | a repeat goes back to the start in normal mode without telling anyone; in full mode the listener hears `onStop` |
| TimeRulers.TimeRuler.EndAfterAnimation | timeruler/src/main/java/com/cxj/timeruler/TimeRuler.kt:648-655 | the session ends with the playhead shown at A (or the ruler's start) and `onStop` heard |
| TimeRulers.TimeRuler.RunPlayer | timeruler/src/main/java/com/cxj/timeruler/TimeRuler.kt:1788-1792 | the player of the current mode starts from the start of play |
| TimeRulers.TimeRuler.BeginSession | timeruler/src/main/java/com/cxj/timeruler/TimeRuler.kt:1784-1787 | the session flags: playing, repeat and animator as given, `onStart` not yet heard |
| TimeRulers.TimeRuler.StopPlayer | timeruler/src/main/java/com/cxj/timeruler/TimeRuler.kt:1806-1817 | the animation is cancelled, or the stepping stops with the playhead shown, or the full-mode player stops with `onStop` heard |
| TimeRulers.TimeRuler.EndSession | timeruler/src/main/java/com/cxj/timeruler/TimeRuler.kt:1802-1805 | no playback, no repeat, nothing pending and `onStart` not heard in the session |
| TimeRulers.TimeRuler.DropStepMessages | timeruler/src/main/java/com/cxj/timeruler/TimeRuler.kt:1810-1812 | no next step and no posted end remain, and the playhead is shown again |
| TimeRulers.TimeRuler.ClearItems | timeruler/src/main/java/com/cxj/timeruler/TimeRuler.kt:1830-1833 | the list is empty, no add or delete is running and the scroll offset is 0 |
| TimeRulers.TimeRuler.SetFullModeStart | timeruler/src/main/java/com/cxj/timeruler/TimeRuler.kt:1013-1024 | the full-mode round starts at the item at the playhead's time, or at item 0 when the playhead is past the last item |
| TimeRulers.TimeRuler.SetRoundStart | timeruler/src/main/java/com/cxj/timeruler/TimeRuler.kt:1022-1023 | the round's start position and item index are set |
| TimeRulers.TimeRuler.SetFullModeEnd | timeruler/src/main/java/com/cxj/timeruler/TimeRuler.kt:1018-1031 | the round ends at B's item when B is shown, else at the last item |
| TimeRulers.TimeRuler.EndAtB | timeruler/src/main/java/com/cxj/timeruler/TimeRuler.kt:1025-1028 | the round ends at B's time |
| TimeRulers.TimeRuler.EndAtLast | timeruler/src/main/java/com/cxj/timeruler/TimeRuler.kt:1018-1030 | the round ends at the last item, and B is not shown |
| TimeRulers.TimeRuler.AnnounceFullPlay | timeruler/src/main/java/com/cxj/timeruler/TimeRuler.kt:1032-1038 | the play indicator is shown at the start of the round, `onStart` is heard once and the start item's time is reported before the first message is queued |
| TimeRulers.TimeRuler.PlaceFullStart | timeruler/src/main/java/com/cxj/timeruler/TimeRuler.kt:1008-1032 | playing, with the play indicator on the start of the round |
| TimeRulers.TimeRuler.FullStepTo | timeruler/src/main/java/com/cxj/timeruler/TimeRuler.kt:326-351 | the full-mode player reports item i; at the end item a non-repeating round ends with `onStop`, and a repeating one goes on |
| TimeRulers.TimeRuler.NextFullIndex | timeruler/src/main/java/com/cxj/timeruler/TimeRuler.kt:310-311 | the playhead counts as moved and the round's index moves on by one |
| TimeRulers.TimeRuler.FullAdvanceTo | timeruler/src/main/java/com/cxj/timeruler/TimeRuler.kt:327-335 | both indicators move to item i's position and its time is reported |
| TimeRulers.TimeRuler.StopAfterFullRound | timeruler/src/main/java/com/cxj/timeruler/TimeRuler.kt:314-319 | the round's range is restored, the playhead shown, the session ended and `onStop` heard |
| TimeRulers.TimeRuler.RepeatFullRound | timeruler/src/main/java/com/cxj/timeruler/TimeRuler.kt:320-323 | the range is restored and the next round starts, still playing |
| TimeRulers.TimeRuler.SetFullRoundRange | timeruler/src/main/java/com/cxj/timeruler/TimeRuler.kt:1179-1195 | the round runs from A to B when both are shown, else from the first item to the last |
| TimeRulers.TimeRuler.PlaceRoundStart | timeruler/src/main/java/com/cxj/timeruler/TimeRuler.kt:1196-1202 | both indicators on the start of the round; without repeat the playhead is shown again |
| TimeRulers.TimeRuler.SwitchScale | timeruler/src/main/java/com/cxj/timeruler/TimeRuler.kt:1662-1665 | under the new mode's scale every indicator sits on its own time, so the playhead's time is unchanged |
| TimeRulers.TimeRuler.SwitchOffset | timeruler/src/main/java/com/cxj/timeruler/TimeRuler.kt:1666-1680 | entering full mode saves the offset and scrolls to 0; leaving it restores the saved offset, or centres the playhead if it moved meanwhile |
| TimeRulers.TimeRuler.RestoreOffset | timeruler/src/main/java/com/cxj/timeruler/TimeRuler.kt:1672-1678 | back in normal mode the saved offset returns, or the one centring the playhead if it moved, clamped |

## Left out

- Drawing is not modelled: `onDraw`, segment, text and range drawing, `Paint`/`Canvas` handling and text measurement. It is rendering only.
- Touch physics is not modelled: slop, `VelocityTracker`, fling through `Scroller`, `computeScroll`/`processScroller`. These are platform input. Only their effects are methods: set the offset, touch down, move, up, tap.
- Animation frames and durations are not modelled, nor `Handler` delays. Every animation, message and `post` is a completion method that the environment calls, and the model says nothing about when or in which order the environment calls them.
- `AnimatorUtil` is not modelled. It reads the system animator scale by reflection, and whether animators are enabled is a boolean parameter of `Play`.
- The demo activity `MainActivity` is not modelled. It only wires buttons to logging listeners.
- Attribute and display-metric derivation (`initAttributes`, `initPositionAttrs`) is not modelled. Screen width, offsets and radii are constructor parameters.
- Float rounding is not modelled in the `com.cxj` tree. Positions and times are exact `real` numbers. So a full/normal mismatch that float rounding can cause (TimeRuler.kt line 1693 says so) does not arise in the model.
- Setting full mode during playback is not modelled. `TimeRulers.TimeRuler.SetFullMode` and `LegacyTimeRulers.TimeRuler.SetFullMode` require that nothing is playing. So the resume branch of `checkIfNeedToContinuePlay` is never reached.
- In the `com.thirtydays` tree the following are not modelled:
  - the animated play path: `initPlayAnimator`'s frames and `fixTimeIndicatorOffset`;
  - the full-mode stepped player: `playInFullModeHandler`, `resetPlayTimeInFullMode`, `stopPlayInFullMode`;
  - the drag of the playhead in `moveTimeIndicator`.
  Its `PlayInFullMode` models only the start of such a playback.
- The formatting of tick labels is modelled only for the numbers printed (`LegacyScale.FormatPosToTimeText`), not for text layout.
- LegacyTimeRulers.TimeRuler.SetRangeATime: requires a non-empty item list in full mode. The source reads the last item there, and would fail on an empty list.
- LegacyTimeRulers.TimeRuler.SetRangeBTime: requires a non-empty item list in full mode. The reason is the same as for `SetRangeATime`.
- LegacyTimeRulers.TimeRuler.RunQueuedReset: requires items, and a set A on an existing tick. The source reads the item of that tick.
- LegacyTimeRulers.TimeRuler.PlayInFullMode: requires items. The source reads the last item.
- TimeRulers.TimeRuler.PlayInFullMode: requires the item lookup for the playhead's time to succeed. The playhead must be past the last item or on an item's time. Otherwise the source indexes the list at −1.
- TimeRulers.TimeRuler.Reset: drops a pending show or delete fade instead of letting its completion arrive later on the emptied list.
- TimeRulers.TimeRuler.MoveTimeIndicatorToCenter: takes its scroll animation and the playhead's move animation as finished, in that order, at the moment they start.
- LegacyRangeIndicators.RangeIndicator.UpdateIndicatorAPosition: the bounds "never after a shown B" and "never after the last item" are stated only under a proviso. The proviso is that the view is not scrolled before the ruler's start, or that the start offset does not exceed the bound plus half a segment. Otherwise the snap in `updatePosition` raises the marker to the start offset, which can lie past the bound. The source behaves this way too, so this is not listed as a finding.
- LegacyRangeIndicators.RangeIndicator.UpdateIndicatorBPosition: the A..last-item bounds are stated under the same proviso as for `UpdateIndicatorAPosition`.
- LegacyTimeRulers.TimeRuler.CheckRangeIndicatorWithDelete: the bounds it restores are stated under the same proviso. Its contract gives the range's outcome for a delete. `DeleteAt` and `StartDeleting` rely on it and do not repeat it.
- The rulers follow the corrected rule of each entry under "## Findings", not the rule as written. The members listed below therefore differ from the cited source lines in the way each finding describes. Each finding's as-written member keeps the source's behaviour beside the ruler.
- RulerRules.PositionChangedEvents: gives `onPositionChanged` and `onSelectedStateChanged` the intended item index `ListenerIndex`. The source, at TimeRuler.kt line 523, divides by 1000 once more and reports item 0 for every time below 200 s (Finding 2).
- TimeRulers.TimeRuler.NotifyPlayheadChanged: its callbacks carry the intended item index (Finding 2), as in `PositionChangedEvents`.
- TimeRulers.TimeRuler.UpdatePlayhead: its callbacks carry the intended item index (Finding 2).
- TimeRulers.TimeRuler.UpdateTimeIndicatorPosition: its callbacks carry the intended item index (Finding 2).
- TimeRulers.TimeRuler.ShiftItemsRight: moves an off-screen item's time along with its position (`ShiftBy`). The source, at line 1586, moves only `realPosition` (Finding 1). So the ruler invariant that every item carries the time of its position holds for the corrected program only.
- TimeRulers.TimeRuler.ShiftItemsLeft: moves an off-screen item's time along with its position. The source, at line 1746, moves only `realPosition` (Finding 1).
- TimeRulers.TimeRuler.FixTimeIndicatorOffset: posts the correction to the intended `FixTargetIndex`, the first tick after the position. The source, at lines 869-874, uses the rounding index plus one (Finding 3).
- TimeRulers.TimeRuler.CancelPlayAnimation: the correction it posts goes to the intended `FixTargetIndex` (Finding 3).
- TimeRulers.TimeRuler.StopAnimator: the correction it posts goes to the intended `FixTargetIndex` (Finding 3).
- LegacyTimeRulers.TimeRuler.GetCurrentTimeIndex: in full mode it looks up the converted full-mode position (`CurrentTimePosition`). The source, at lines 1032-1036, converts the normal-mode position again (Finding 6).
- LegacyTimeRulers.TimeRuler.SettleAndLocate: in full mode it finds the circle through the corrected lookup (Finding 6).
- LegacyTimeRulers.TimeRuler.Tap: in full mode it finds the circle through the corrected lookup (Finding 6). The source reaches the as-written lookup at lines 1283 and 1289.
- LegacyTimeRulers.TimeRuler.TapWhenIdle: in full mode it finds the circle through the corrected lookup (Finding 6).
- LegacyTimeRulers.TimeRuler.ReleasePlayhead: in full mode it remembers the circle found through the corrected lookup (Finding 6).
- LegacyTimeRulers.TimeRuler.GetCurrentTimeItem: in full mode it finds the item through the corrected lookup (Finding 6). The source, at line 1637, uses the as-written one.
- LegacyTimeRulers.TimeRuler.ConvertTimeToFullMode: calls the corrected B setter, where the source, at line 1166, calls the one that writes A's screen position (Finding 5). Its contract states only the markers' full-mode time positions, which both setters write alike. It does not state the screen positions they are left with.
- TimeRulers.TimeRuler.PlayTick: requires the stop index to name an item. In the source that can fail. A delete before A leaves a full range in place (`RulerRules.DeleteBeforeRangeKeepsB`), so B on the last item ends up one tick past the shortened list. `preparePlay` then takes B's tick as the stop index (line 971), and the step handler reads `timeItemList[stopPlayTimeIndex]` out of bounds (lines 269 and 278). The model does not follow playback into that crash.
- TimeRulers.TimeRuler.StepTo: requires the stop index to name an item, for the same reason as `PlayTick`.
- TimeRulers.TimeRuler.TouchDown: the y-band guard `checkIfInTouchArea(y)` (TimeRuler.kt lines 1220-1224 and 1958-1960) is not modelled. The source applies it while neither the playhead nor a marker is being dragged. The touch's y coordinate is not a parameter, so every such touch is taken as inside the band from `paddingTop` to `minHeight`.
- TimeRulers.TimeRuler.TouchMove: the y-band guard is not modelled, as for `TouchDown`.
- TimeRulers.TimeRuler.TouchUp: the y-band guard is not modelled, as for `TouchDown`.
- LegacyTimeRulers.TimeRuler.Tap: the y-band guard of the `com.thirtydays` tree (TimeRuler.kt lines 1221-1225 and 1911) is not modelled. Every tap is taken as inside the band.
- LegacyTimeRulers.TimeRuler.ReleasePlayhead: the y-band guard is not modelled, as for `Tap`.
- TimeRulers.TimeRuler.RestoreOffset: centres the playhead with `screenCenterPosition`, which is half the display width. Line 1676 uses `width / 2`, half the view's own width. The model has no separate view width, so the two agree only for a view as wide as the display. The same holds at line 1650, in the mode switch during playback, which is not modelled.

## Findings

| source | as written | input that shows it | evidently intended | confidence | as-written member | corrected member |
|---|---|---|---|---|---|---|
| timeruler/src/main/java/com/cxj/timeruler/TimeRuler.kt:1586 | when an add or delete shifts a later item that is off screen, only `realPosition` moves and the item's `time` keeps its old value (line 1586 for add, line 1746 for delete) | an off-screen item on tick k shifted one segment forward: its position now reads (k+1)·200 ms but its stored time still says k·200 ms | the time moves with the position, as the on-screen branch's `moveToNext`/`moveTo` does | not executed | CircleIndicators.CircleIndicator.ShiftPositionOnly, CircleIndicators.ShiftPositionOnlyLeavesStaleTime | CircleIndicators.CircleIndicator.ShiftBy |
| timeruler/src/main/java/com/cxj/timeruler/TimeRuler.kt:517-532 | the item index passed to `onPositionChanged` is `millisecond / segmentTimeInterval / 1000`, with the interval already in milliseconds | a playhead at 400 ms is reported as item 0 instead of item 2; every time below 200 s is reported as item 0 | index = millisecond / segmentTimeInterval, the 200 ms step the time falls in | not executed | RulerRules.ListenerIndexAsWritten, RulerRules.ListenerIndexCounterexample | RulerRules.ListenerIndex |
| timeruler/src/main/java/com/cxj/timeruler/TimeRuler.kt:865-893 | `fixTimeIndicatorOffset` takes the rounding tick index and adds one to find "the next tick" | a stop three quarters into segment k carries the playhead to tick k+2, skipping tick k+1 | the truncating index plus one: the first tick after the position, capped at the last item | not executed | RulerRules.FixTargetIndexAsWritten, RulerRules.FixTargetSkipsTick | RulerRules.FixTargetIndex |
| timeruler/srcbak/main/java/com/thirtydays/timeruler/TimeRuler.kt:247-257 | when the step handler finds the start index already at the stop index, it queues the reset but never clears `isPlaying` and never calls `onStop` | a play whose start tick equals its stop tick: after the tick, `isPlaying` still holds and no `onStop` was heard, so later `play` calls are refused | end the session like the other stop branch: `isPlaying` false and `onStop` fired, which the `com.cxj` tree does at TimeRuler.kt:258-262 | not executed | LegacyTimeRulers.TimeRuler.PlayTickAsWritten | LegacyTimeRulers.TimeRuler.PlayTick |
| timeruler/srcbak/main/java/com/thirtydays/timeruler/indicator/RangeIndicator.kt:549-552 | `setIndicatorBTimePositionInFullMode` writes A's `currentPositionInFullMode` | any call in full mode: B's full-mode time position is set, but A's screen position takes B's value and B's screen position stays stale, until the next full-mode draw re-derives both from their time positions | the setter writes B's full-mode position | not executed | LegacyRangeIndicators.RangeIndicator.SetIndicatorBTimePositionInFullModeAsWritten | LegacyRangeIndicators.RangeIndicator.SetIndicatorBTimePositionInFullMode |
| timeruler/srcbak/main/java/com/thirtydays/timeruler/TimeRuler.kt:1032-1036 | in full mode `getCurrentTimeIndex` converts the playhead's normal-mode position again with `convertToTimePosition`, a conversion meant for full-mode positions | a 400 px screen with 50 px offsets and the playhead on position 100: the index is taken from 100000 instead of 100 | convert the playhead's full-mode position `timePositionInFullMode` back to a normal-mode position; full-mode moves update only that position, not `timePosition` | not executed | LegacyTimeRulers.CurrentTimePositionAsWritten, LegacyTimeRulers.CurrentTimePositionCounterexample | LegacyTimeRulers.CurrentTimePosition |
