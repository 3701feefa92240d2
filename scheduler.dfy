/** The greedy schedule allocator (app/services/scheduler.py): free time left in a day
    once sleep and fixed events are taken out, the time-window test, slot splitting and
    the day-by-day plan generation. Instants are UTC seconds, so an hour of the day is
    `(t % 86400) / 3600`; float hours are `real`. */
module Scheduler {
  import opened Wrappers
  import opened Schemas
  import opened Intervals
  import Lists

  /** `SLOT_MINUTES`: the shortest free slot kept, and one more than the shortest remainder. */
  const SlotMinutes: int := 30
  const MinSlot: int := SlotMinutes * SecondsPerMinute

  // ---- Clock arithmetic ----

  function HourOf(t: Instant): int {
    (t % SecondsPerDay) / SecondsPerHour
  }

  function MidnightOf(t: Instant): Instant {
    t - t % SecondsPerDay
  }

  /** A UTC day: starts at midnight and lasts 24 hours. */
  predicate WholeDay(dayStart: Instant, dayEnd: Instant) {
    dayStart % SecondsPerDay == 0 && dayEnd == dayStart + SecondsPerDay
  }

  /** `t.replace(hour=h, minute=0, second=0, microsecond=0)`; None where Python raises
      (an hour outside 0..23). */
  function ReplaceHour(t: Instant, h: int): (r: Option<Instant>)
    ensures r.Some? <==> 0 <= h <= 23
  {
    if 0 <= h <= 23 then Some(MidnightOf(t) + h * SecondsPerHour) else None
  }

  /** An instant `s` seconds after a midnight lies on that midnight's day, at hour `s / 3600`. */
  lemma OnDay(midnight: Instant, s: int)
    requires midnight % SecondsPerDay == 0 && 0 <= s < SecondsPerDay
    ensures MidnightOf(midnight + s) == midnight
    ensures HourOf(midnight + s) == s / SecondsPerHour
  {
    var q := midnight / SecondsPerDay;
    assert midnight == q * SecondsPerDay;
    assert midnight + s == q * SecondsPerDay + s;
    assert (midnight + s) % SecondsPerDay == s;
  }

  /** On an instant of the hour's own day the replacement lands at that hour, same day. */
  lemma ReplaceHourOnDay(t: Instant, h: int)
    requires 0 <= h <= 23
    ensures MidnightOf(ReplaceHour(t, h).value) == MidnightOf(t)
    ensures HourOf(ReplaceHour(t, h).value) == h
  {
    MidnightIsMidnight(t);
    OnDay(MidnightOf(t), h * SecondsPerHour);
  }

  lemma MidnightIsMidnight(t: Instant)
    ensures MidnightOf(t) % SecondsPerDay == 0
    ensures MidnightOf(t) <= t < MidnightOf(t) + SecondsPerDay
  {
    var q := t / SecondsPerDay;
    assert t == q * SecondsPerDay + t % SecondsPerDay;
    assert MidnightOf(t) == q * SecondsPerDay;
  }

  // ---- Time windows ----

  /** `_time_window_range`: the hours a preferred window spans. */
  function TimeWindowRange(w: TimeWindow): (lohi: (int, int)) {
    match w
    case Morning => (7, 12)
    case Afternoon => (12, 17)
    case Evening => (17, 22)
  }

  /** The three windows follow each other from 07:00 to 22:00 without gap or overlap. */
  lemma WindowsTile(w: TimeWindow)
    ensures 7 <= TimeWindowRange(w).0 < TimeWindowRange(w).1 <= 22
    ensures TimeWindowRange(Morning).1 == TimeWindowRange(Afternoon).0
    ensures TimeWindowRange(Afternoon).1 == TimeWindowRange(Evening).0
    ensures TimeWindowRange(Morning).0 == 7 && TimeWindowRange(Evening).1 == 22
  {
  }

  /** `_slot_in_window` as written: compares the hour of the start and the hour of the end. */
  predicate SlotInWindowAsWritten(slot: Span, w: TimeWindow) {
    HourOf(slot.start) >= TimeWindowRange(w).0 && HourOf(slot.end) <= TimeWindowRange(w).1
  }

  /** A slot ending at the next midnight has end hour 0, which passes every upper bound:
      the free slot 07:00-24:00 of an empty day counts as a morning slot, though most of
      it lies after noon. */
  lemma MidnightEndPassesAsWritten()
    ensures SlotInWindowAsWritten(Span(7 * SecondsPerHour, SecondsPerDay), Morning)
    ensures !SlotInWindow(Span(7 * SecondsPerHour, SecondsPerDay), Morning)
    ensures HourOf(20 * SecondsPerHour) == 20
  {
  }

  /** The window test as intended: the slot starts at or after the window's first hour and
      ends by its last hour on the day it starts. */
  predicate SlotInWindow(slot: Span, w: TimeWindow) {
    var (lo, hi) := TimeWindowRange(w);
    MidnightOf(slot.start) + lo * SecondsPerHour <= slot.start
      && slot.end <= MidnightOf(slot.start) + hi * SecondsPerHour
  }

  /** A non-empty slot is in a window exactly when each of its instants falls in one of
      the window's hours. */
  lemma SlotInWindowMeans(slot: Span, w: TimeWindow)
    requires slot.start < slot.end
    ensures SlotInWindow(slot, w) <==>
      forall t :: slot.start <= t < slot.end ==> TimeWindowRange(w).0 <= HourOf(t) < TimeWindowRange(w).1
  {
    var (lo, hi) := TimeWindowRange(w);
    var m := MidnightOf(slot.start);
    MidnightIsMidnight(slot.start);
    OnDay(m, slot.start - m);
    if SlotInWindow(slot, w) {
      forall t | slot.start <= t < slot.end ensures lo <= HourOf(t) < hi {
        OnDay(m, t - m);
      }
    } else if lo <= HourOf(slot.start) < hi {
      var t := m + hi * SecondsPerHour;
      OnDay(m, hi * SecondsPerHour);
      assert slot.start <= t < slot.end && HourOf(t) == hi;
    } else {
      assert !(lo <= HourOf(slot.start) < hi);
    }
  }

  // ---- Free blocks ----

  /** The sleep spans blocked out of the day: one span when sleep starts before it ends,
      otherwise the early-morning part and the late-evening part. */
  function SleepSpans(dayStart: Instant, dayEnd: Instant, c: CapacityConstraints): (r: Option<seq<Span>>)
    ensures r.Some? <==> 0 <= c.sleepStartHour <= 23 && 0 <= c.sleepEndHour <= 23
  {
    var sleepStart, sleepEnd := ReplaceHour(dayStart, c.sleepStartHour), ReplaceHour(dayStart, c.sleepEndHour);
    if sleepStart.None? || sleepEnd.None? then None
    else if c.sleepStartHour < c.sleepEndHour then Some([Span(sleepStart.value, sleepEnd.value)])
    else Some([Span(dayStart, sleepEnd.value), Span(sleepStart.value, dayEnd)])
  }

  /** A fixed event's blocked span: the whole day when all-day, else the event clipped to
      the day if anything is left. */
  function EventSpan(ev: CalendarEvent, dayStart: Instant, dayEnd: Instant): seq<Span> {
    if ev.isAllDay then [Span(dayStart, dayEnd)]
    else if Max(ev.start, dayStart) < Min(ev.end, dayEnd) then [Span(Max(ev.start, dayStart), Min(ev.end, dayEnd))]
    else []
  }

  function EventSpans(events: seq<CalendarEvent>, dayStart: Instant, dayEnd: Instant): seq<Span>
    decreases |events|
  {
    if events == [] then []
    else EventSpans(events[..|events| - 1], dayStart, dayEnd) + EventSpan(events[|events| - 1], dayStart, dayEnd)
  }

  predicate LongEnough(slot: Span) {
    slot.end - slot.start >= MinSlot
  }

  /** Everything blocked out of the day, before sorting. */
  function Blocked(dayStart: Instant, dayEnd: Instant, events: seq<CalendarEvent>, c: CapacityConstraints): Option<seq<Span>> {
    match SleepSpans(dayStart, dayEnd, c)
    case None => None
    case Some(sleep) => Some(sleep + EventSpans(events, dayStart, dayEnd))
  }

  /** What `compute_free_blocks` returns: the gaps between the merged blocked spans, sorted
      by start, that last at least `SLOT_MINUTES`; None where it raises. */
  function FreeBlocks(dayStart: Instant, dayEnd: Instant, events: seq<CalendarEvent>, c: CapacityConstraints): Option<seq<Span>> {
    match Blocked(dayStart, dayEnd, events, c)
    case None => None
    case Some(blocked) => Some(Lists.Filter(Gaps(Merge(Lists.SortBy(blocked, StartOf)), dayStart, dayEnd), LongEnough))
  }

  /** `compute_free_blocks`: the blocked list built, sorted, merged in place and swept for
      gaps, then the short gaps dropped. */
  method ComputeFreeBlocks(dayStart: Instant, dayEnd: Instant, fixedEvents: seq<CalendarEvent>, c: CapacityConstraints)
    returns (r: Option<seq<Span>>)
    ensures r == FreeBlocks(dayStart, dayEnd, fixedEvents, c)
  {
    var blocked := CollectBlocked(dayStart, dayEnd, fixedEvents, c);
    if blocked.None? {
      return None;
    }
    var sorted := Lists.SortBy(blocked.value, StartOf);
    var merged := MergeSorted(sorted);
    var free := SweepGaps(merged, dayStart, dayEnd);
    r := Some(Lists.Filter(free, LongEnough));
  }

  /** The first part of `compute_free_blocks`: the sleep spans, then one span per event
      that is all-day or overlaps the day. */
  method CollectBlocked(dayStart: Instant, dayEnd: Instant, fixedEvents: seq<CalendarEvent>, c: CapacityConstraints)
    returns (r: Option<seq<Span>>)
    ensures r == Blocked(dayStart, dayEnd, fixedEvents, c)
  {
    var sleepStart := ReplaceHour(dayStart, c.sleepStartHour);
    var sleepEnd := ReplaceHour(dayStart, c.sleepEndHour);
    if sleepStart.None? || sleepEnd.None? {
      return None;
    }
    var blocked: seq<Span>;
    if c.sleepStartHour < c.sleepEndHour {
      blocked := [Span(sleepStart.value, sleepEnd.value)];
    } else {
      blocked := [Span(dayStart, sleepEnd.value)];
      var nextSleep := ReplaceHour(dayStart, c.sleepStartHour).value;
      blocked := blocked + [Span(nextSleep, dayEnd)];
      assert blocked == [Span(dayStart, sleepEnd.value), Span(sleepStart.value, dayEnd)];
    }
    ghost var sleep := blocked;
    assert SleepSpans(dayStart, dayEnd, c) == Some(sleep);
    for i := 0 to |fixedEvents|
      invariant blocked == sleep + EventSpans(fixedEvents[..i], dayStart, dayEnd)
    {
      var ev := fixedEvents[i];
      if ev.isAllDay {
        blocked := blocked + [Span(dayStart, dayEnd)];
      } else {
        var evStart, evEnd := Max(ev.start, dayStart), Min(ev.end, dayEnd);
        if evStart < evEnd {
          blocked := blocked + [Span(evStart, evEnd)];
        }
      }
      assert fixedEvents[..i + 1][..i] == fixedEvents[..i];
    }
    assert fixedEvents[..|fixedEvents|] == fixedEvents;
    r := Some(blocked);
  }

  /** The merge loop: extend the last merged span in place or append. */
  method MergeSorted(blocked: seq<Span>) returns (merged: seq<Span>)
    ensures merged == Merge(blocked)
  {
    merged := [];
    for i := 0 to |blocked|
      invariant merged == Merge(blocked[..i])
    {
      var b := blocked[i];
      if merged != [] && b.start <= merged[|merged| - 1].end {
        merged := merged[|merged| - 1 := Span(merged[|merged| - 1].start, Max(merged[|merged| - 1].end, b.end))];
      } else {
        merged := merged + [b];
      }
      assert blocked[..i + 1][..i] == blocked[..i];
    }
    assert blocked[..|blocked|] == blocked;
  }

  /** The cursor sweep from the day's start to its end. */
  method SweepGaps(merged: seq<Span>, dayStart: Instant, dayEnd: Instant) returns (free: seq<Span>)
    ensures free == Gaps(merged, dayStart, dayEnd)
  {
    free := [];
    var cursor := dayStart;
    for i := 0 to |merged|
      invariant free + Gaps(merged[i..], cursor, dayEnd) == Gaps(merged, dayStart, dayEnd)
    {
      var b := merged[i];
      if cursor < b.start {
        free := free + [Span(cursor, b.start)];
      }
      assert merged[i..][1..] == merged[i + 1..];
      cursor := Max(cursor, b.end);
    }
    if cursor < dayEnd {
      free := free + [Span(cursor, dayEnd)];
    }
  }

  // ---- What compute_free_blocks promises ----

  /** Every free slot lasts at least `SLOT_MINUTES` and starts no earlier than the day. */
  lemma FreeSlotsLongAndAfterStart(dayStart: Instant, dayEnd: Instant, events: seq<CalendarEvent>, c: CapacityConstraints)
    requires FreeBlocks(dayStart, dayEnd, events, c).Some?
    ensures forall i :: 0 <= i < |FreeBlocks(dayStart, dayEnd, events, c).value| ==>
      var slot := FreeBlocks(dayStart, dayEnd, events, c).value[i];
      slot.end - slot.start >= MinSlot && dayStart <= slot.start
  {
    var blocked := Blocked(dayStart, dayEnd, events, c).value;
    var merged := Merge(Lists.SortBy(blocked, StartOf));
    var gaps := Gaps(merged, dayStart, dayEnd);
    GapsAfterCursor(merged, dayStart, dayEnd);
    Lists.FilterKeeps(gaps, LongEnough);
  }

  /** Every event span is proper and starts by the day's end. */
  lemma {:induction false} EventSpansProper(events: seq<CalendarEvent>, dayStart: Instant, dayEnd: Instant)
    requires dayStart <= dayEnd
    ensures AllProper(EventSpans(events, dayStart, dayEnd)) && StartsAtMost(EventSpans(events, dayStart, dayEnd), dayEnd)
    decreases |events|
  {
    if events != [] {
      EventSpansProper(events[..|events| - 1], dayStart, dayEnd);
    }
  }

  /** Each event's own span is among the event spans. */
  lemma {:induction false} EventSpansHold(events: seq<CalendarEvent>, dayStart: Instant, dayEnd: Instant)
    ensures forall e, b :: e in events && b in EventSpan(e, dayStart, dayEnd) ==> b in EventSpans(events, dayStart, dayEnd)
    decreases |events|
  {
    if events != [] {
      var p := events[..|events| - 1];
      EventSpansHold(p, dayStart, dayEnd);
      forall e, b | e in events && b in EventSpan(e, dayStart, dayEnd) ensures b in EventSpans(events, dayStart, dayEnd) {
        if e != events[|events| - 1] {
          var k :| 0 <= k < |events| && events[k] == e;
          assert p[k] == e;
        }
      }
    }
  }

  /** On a whole day, the blocked spans are proper and start by the day's end. */
  lemma BlockedProper(dayStart: Instant, dayEnd: Instant, events: seq<CalendarEvent>, c: CapacityConstraints)
    requires WholeDay(dayStart, dayEnd) && Blocked(dayStart, dayEnd, events, c).Some?
    ensures AllProper(Blocked(dayStart, dayEnd, events, c).value)
    ensures StartsAtMost(Blocked(dayStart, dayEnd, events, c).value, dayEnd)
  {
    var sleep := SleepSpans(dayStart, dayEnd, c).value;
    assert MidnightOf(dayStart) == dayStart;
    assert AllProper(sleep) && StartsAtMost(sleep, dayEnd);
    EventSpansProper(events, dayStart, dayEnd);
  }

  /** The sorted blocked list: sorted by start, proper, starting by the day's end, and
      holding exactly the blocked spans. */
  lemma SortedBlocked(dayStart: Instant, dayEnd: Instant, events: seq<CalendarEvent>, c: CapacityConstraints)
    requires WholeDay(dayStart, dayEnd) && Blocked(dayStart, dayEnd, events, c).Some?
    ensures var blocked := Blocked(dayStart, dayEnd, events, c).value;
      var sorted := Lists.SortBy(blocked, StartOf);
      && StartsSorted(sorted) && AllProper(sorted) && StartsAtMost(sorted, dayEnd)
      && forall b :: b in blocked ==> b in sorted
  {
    var blocked := Blocked(dayStart, dayEnd, events, c).value;
    var sorted := Lists.SortBy(blocked, StartOf);
    BlockedProper(dayStart, dayEnd, events, c);
    Lists.SortBySorts(blocked, StartOf);
    forall i | 0 <= i < |sorted| ensures sorted[i].start <= sorted[i].end && sorted[i].start <= dayEnd {
      assert sorted[i] in multiset(blocked);
    }
    forall b | b in blocked ensures b in sorted {
      assert b in multiset(sorted);
    }
  }

  /** On a whole day the free slots lie inside the day, come in order without overlapping,
      and share no instant with any blocked span: sleep, a clipped event or an all-day event. */
  lemma FreeSlotsInDay(dayStart: Instant, dayEnd: Instant, events: seq<CalendarEvent>, c: CapacityConstraints)
    requires WholeDay(dayStart, dayEnd) && FreeBlocks(dayStart, dayEnd, events, c).Some?
    ensures var slots := FreeBlocks(dayStart, dayEnd, events, c).value;
      && (forall i :: 0 <= i < |slots| ==> dayStart <= slots[i].start < slots[i].end <= dayEnd)
      && Lists.Pairwise(slots, Before)
      && (forall i, b :: 0 <= i < |slots| && b in Blocked(dayStart, dayEnd, events, c).value ==> Disjoint(slots[i], b))
  {
    var blocked := Blocked(dayStart, dayEnd, events, c).value;
    var sorted := Lists.SortBy(blocked, StartOf);
    var merged := Merge(sorted);
    var gaps := Gaps(merged, dayStart, dayEnd);
    var slots := Lists.Filter(gaps, LongEnough);
    SortedBlocked(dayStart, dayEnd, events, c);
    MergeSeparates(sorted);
    MergeStartsAtMost(sorted, dayEnd);
    GapsAfterCursor(merged, dayStart, dayEnd);
    GapsEndBy(merged, dayStart, dayEnd);
    GapsOrdered(merged, dayStart, dayEnd);
    GapsApart(merged, dayStart, dayEnd);
    Lists.FilterKeeps(gaps, LongEnough);
    Lists.FilterPairwise(gaps, LongEnough, Before);
    forall i, b | 0 <= i < |slots| && b in blocked ensures Disjoint(slots[i], b) {
      var k :| 0 <= k < |gaps| && gaps[k] == slots[i];
      var j :| 0 <= j < |sorted| && sorted[j] == b;
      ApartFromCovered(gaps[k], b, merged);
    }
  }

  /** No free time is lost, the converse of FreeSlotsInDay: on a whole day, an instant that
      no blocked span holds lies in a gap of the sweep that is inside the day and clear of
      every blocked span; that gap is one of the free slots exactly when it lasts at least
      `SLOT_MINUTES`, so only gaps shorter than 30 minutes are dropped. */
  lemma FreeTimeKept(dayStart: Instant, dayEnd: Instant, events: seq<CalendarEvent>, c: CapacityConstraints, t: Instant)
    requires WholeDay(dayStart, dayEnd) && Blocked(dayStart, dayEnd, events, c).Some?
    requires dayStart <= t < dayEnd
    requires forall b :: b in Blocked(dayStart, dayEnd, events, c).value ==> !Holds(b, t)
    ensures FreeBlocks(dayStart, dayEnd, events, c).Some?
    ensures exists g :: (Holds(g, t) && dayStart <= g.start && g.end <= dayEnd
      && (forall b :: b in Blocked(dayStart, dayEnd, events, c).value ==> Disjoint(g, b))
      && (g in FreeBlocks(dayStart, dayEnd, events, c).value <==> LongEnough(g)))
  {
    var blocked := Blocked(dayStart, dayEnd, events, c).value;
    var sorted := Lists.SortBy(blocked, StartOf);
    var gaps := Gaps(Merge(sorted), dayStart, dayEnd);
    var slots := Lists.Filter(gaps, LongEnough);
    assert FreeBlocks(dayStart, dayEnd, events, c) == Some(slots);
    BlockedProper(dayStart, dayEnd, events, c);
    var g := GapHolding(blocked, dayStart, dayEnd, t);
    Lists.FilterKeeps(gaps, LongEnough);
    assert g in slots <==> LongEnough(g);
  }

  /** The gap of the sweep over the day's blocked spans that holds a free instant. */
  lemma GapHolding(blocked: seq<Span>, dayStart: Instant, dayEnd: Instant, t: Instant) returns (g: Span)
    requires AllProper(blocked) && StartsAtMost(blocked, dayEnd)
    requires dayStart <= t < dayEnd
    requires forall b :: b in blocked ==> !Holds(b, t)
    ensures g in Gaps(Merge(Lists.SortBy(blocked, StartOf)), dayStart, dayEnd)
    ensures Holds(g, t) && dayStart <= g.start && g.end <= dayEnd
    ensures forall b :: b in blocked ==> Disjoint(g, b)
  {
    var sorted := Lists.SortBy(blocked, StartOf);
    Lists.SortBySorts(blocked, StartOf);
    forall i | 0 <= i < |sorted| ensures !Holds(sorted[i], t) && sorted[i].start <= sorted[i].end && sorted[i].start <= dayEnd {
      assert sorted[i] in multiset(blocked);
    }
    assert StartsSorted(sorted) by {
      forall i, j | 0 <= i < j < |sorted| ensures sorted[i].start <= sorted[j].start {
        assert StartOf(sorted[i]) <= StartOf(sorted[j]);
      }
    }
    FreeInstantInGap(sorted, dayStart, dayEnd, t);
    g :| g in Gaps(Merge(sorted), dayStart, dayEnd) && Holds(g, t) && dayStart <= g.start && g.end <= dayEnd
      && forall i :: 0 <= i < |sorted| ==> Disjoint(g, sorted[i]);
    forall b | b in blocked ensures Disjoint(g, b) {
      assert b in multiset(sorted);
      var i :| 0 <= i < |sorted| && sorted[i] == b;
    }
  }

  /** No free slot overlaps the sleep window(s) or an event clipped to the day. */
  lemma FreeSlotsAvoidSleepAndEvents(dayStart: Instant, dayEnd: Instant, events: seq<CalendarEvent>, c: CapacityConstraints)
    requires WholeDay(dayStart, dayEnd) && FreeBlocks(dayStart, dayEnd, events, c).Some?
    ensures var slots := FreeBlocks(dayStart, dayEnd, events, c).value;
      && (forall i, b :: 0 <= i < |slots| && b in SleepSpans(dayStart, dayEnd, c).value ==> Disjoint(slots[i], b))
      && (forall i, e :: 0 <= i < |slots| && e in events && !e.isAllDay && Max(e.start, dayStart) < Min(e.end, dayEnd) ==>
            Disjoint(slots[i], Span(Max(e.start, dayStart), Min(e.end, dayEnd))))
  {
    var slots := FreeBlocks(dayStart, dayEnd, events, c).value;
    var sleep, spans := SleepSpans(dayStart, dayEnd, c).value, EventSpans(events, dayStart, dayEnd);
    assert Blocked(dayStart, dayEnd, events, c).value == sleep + spans;
    FreeSlotsInDay(dayStart, dayEnd, events, c);
    EventSpansHold(events, dayStart, dayEnd);
    forall i, b | 0 <= i < |slots| && b in sleep ensures Disjoint(slots[i], b) {
      assert b in sleep + spans;
    }
    forall i, e | 0 <= i < |slots| && e in events && !e.isAllDay && Max(e.start, dayStart) < Min(e.end, dayEnd)
      ensures Disjoint(slots[i], Span(Max(e.start, dayStart), Min(e.end, dayEnd)))
    {
      var b := Span(Max(e.start, dayStart), Min(e.end, dayEnd));
      assert b in EventSpan(e, dayStart, dayEnd);
      assert b in sleep + spans;
    }
  }

  /** An all-day event blocks the whole day: no free slot is left. */
  lemma AllDayLeavesNoFreeTime(dayStart: Instant, dayEnd: Instant, events: seq<CalendarEvent>, c: CapacityConstraints, e: CalendarEvent)
    requires WholeDay(dayStart, dayEnd) && FreeBlocks(dayStart, dayEnd, events, c).Some?
    requires e in events && e.isAllDay
    ensures FreeBlocks(dayStart, dayEnd, events, c) == Some([])
  {
    var slots := FreeBlocks(dayStart, dayEnd, events, c).value;
    FreeSlotsInDay(dayStart, dayEnd, events, c);
    EventSpansHold(events, dayStart, dayEnd);
    assert Span(dayStart, dayEnd) in EventSpan(e, dayStart, dayEnd);
    assert Span(dayStart, dayEnd) in SleepSpans(dayStart, dayEnd, c).value + EventSpans(events, dayStart, dayEnd);
    assert |slots| > 0 ==> Disjoint(slots[0], Span(dayStart, dayEnd));
  }

  /** A span inside one of a day's free slots lies inside the day and clear of the sleep
      hours. */
  lemma CoveredSpanInDayAwake(x: Span, dayStart: Instant, dayEnd: Instant, events: seq<CalendarEvent>, c: CapacityConstraints)
    requires WholeDay(dayStart, dayEnd) && FreeBlocks(dayStart, dayEnd, events, c).Some?
    requires CoveredBy(x, FreeBlocks(dayStart, dayEnd, events, c).value)
    ensures dayStart <= x.start && x.end <= dayEnd
    ensures SleepSpans(dayStart, dayEnd, c).Some?
    ensures forall s :: s in SleepSpans(dayStart, dayEnd, c).value ==> Disjoint(x, s)
  {
    var slots := FreeBlocks(dayStart, dayEnd, events, c).value;
    FreeSlotsInDay(dayStart, dayEnd, events, c);
    FreeSlotsAvoidSleepAndEvents(dayStart, dayEnd, events, c);
    var k :| 0 <= k < |slots| && Within(x, slots[k]);
  }

  /** A span inside one of a day's free slots is clear of every timed event, clipped to the
      day. */
  lemma CoveredSpanClearOfEvents(x: Span, dayStart: Instant, dayEnd: Instant, events: seq<CalendarEvent>, c: CapacityConstraints)
    requires WholeDay(dayStart, dayEnd) && FreeBlocks(dayStart, dayEnd, events, c).Some?
    requires CoveredBy(x, FreeBlocks(dayStart, dayEnd, events, c).value)
    ensures forall e :: e in events && !e.isAllDay && Max(e.start, dayStart) < Min(e.end, dayEnd) ==>
      Disjoint(x, Span(Max(e.start, dayStart), Min(e.end, dayEnd)))
  {
    var slots := FreeBlocks(dayStart, dayEnd, events, c).value;
    FreeSlotsAvoidSleepAndEvents(dayStart, dayEnd, events, c);
    var k :| 0 <= k < |slots| && Within(x, slots[k]);
  }

  /** A day with any free slot left has no all-day event. */
  lemma FreeTimeMeansNoAllDay(dayStart: Instant, dayEnd: Instant, events: seq<CalendarEvent>, c: CapacityConstraints)
    requires WholeDay(dayStart, dayEnd) && FreeBlocks(dayStart, dayEnd, events, c).Some?
    requires FreeBlocks(dayStart, dayEnd, events, c).value != []
    ensures forall e :: e in events ==> !e.isAllDay
  {
    forall e | e in events && e.isAllDay ensures FreeBlocks(dayStart, dayEnd, events, c) == Some([]) {
      AllDayLeavesNoFreeTime(dayStart, dayEnd, events, c, e);
    }
  }

  /** With the default constraints an empty day is free from 07:00 to midnight: 17 hours. */
  lemma EmptyDayFreeTime(dayStart: Instant)
    requires dayStart % SecondsPerDay == 0
    ensures FreeBlocks(dayStart, dayStart + SecondsPerDay, [], DefaultConstraints)
      == Some([Span(dayStart + 7 * SecondsPerHour, dayStart + SecondsPerDay)])
  {
    var dayEnd := dayStart + SecondsPerDay;
    var sleep := Span(dayStart, dayStart + 7 * SecondsPerHour);
    assert MidnightOf(dayStart) == dayStart;
    assert SleepSpans(dayStart, dayEnd, DefaultConstraints) == Some([sleep]);
    assert EventSpans([], dayStart, dayEnd) == [];
    assert [sleep] + [] == [sleep];
    assert Blocked(dayStart, dayEnd, [], DefaultConstraints) == Some([sleep]);
    assert Lists.SortBy([sleep], StartOf) == [sleep];
    assert Merge([sleep]) == [sleep] by {
      assert [sleep][..0] == [];
    }
    var free := Span(dayStart + 7 * SecondsPerHour, dayEnd);
    assert Gaps([sleep], dayStart, dayEnd) == [free] by {
      assert [sleep][1..] == [];
    }
    assert Lists.Filter([free], LongEnough) == [free] by {
      assert LongEnough(free) && [free][1..] == [];
    }
  }

  /** Meetings from 09:00 to 11:00 and from 10:00 to 13:00 merge into one blocked span,
      leaving 07:00-09:00 and 13:00-24:00 free: 13 hours. */
  lemma OverlappingEventsMerge(dayStart: Instant)
    requires dayStart % SecondsPerDay == 0
    ensures FreeBlocks(dayStart, dayStart + SecondsPerDay,
                       [NewCalendarEvent("e1", "A", dayStart + 9 * SecondsPerHour, dayStart + 11 * SecondsPerHour),
                        NewCalendarEvent("e2", "B", dayStart + 10 * SecondsPerHour, dayStart + 13 * SecondsPerHour)],
                       DefaultConstraints)
      == Some([Span(dayStart + 7 * SecondsPerHour, dayStart + 9 * SecondsPerHour),
               Span(dayStart + 13 * SecondsPerHour, dayStart + SecondsPerDay)])
  {
    OverlappingEventsBlocked(dayStart);
    OverlappingSpansFree(dayStart);
  }

  /** The two meetings' day: the night until 07:00 and both meetings are blocked. */
  lemma OverlappingEventsBlocked(dayStart: Instant)
    requires dayStart % SecondsPerDay == 0
    ensures Blocked(dayStart, dayStart + SecondsPerDay,
                    [NewCalendarEvent("e1", "A", dayStart + 9 * SecondsPerHour, dayStart + 11 * SecondsPerHour),
                     NewCalendarEvent("e2", "B", dayStart + 10 * SecondsPerHour, dayStart + 13 * SecondsPerHour)],
                    DefaultConstraints)
      == Some([Span(dayStart, dayStart + 7 * SecondsPerHour), Span(dayStart + 9 * SecondsPerHour, dayStart + 11 * SecondsPerHour),
               Span(dayStart + 10 * SecondsPerHour, dayStart + 13 * SecondsPerHour)])
  {
    var h := SecondsPerHour;
    var dayEnd := dayStart + SecondsPerDay;
    var e1 := NewCalendarEvent("e1", "A", dayStart + 9 * h, dayStart + 11 * h);
    var e2 := NewCalendarEvent("e2", "B", dayStart + 10 * h, dayStart + 13 * h);
    var sleep, a, b := Span(dayStart, dayStart + 7 * h), Span(dayStart + 9 * h, dayStart + 11 * h), Span(dayStart + 10 * h, dayStart + 13 * h);
    assert MidnightOf(dayStart) == dayStart;
    assert SleepSpans(dayStart, dayEnd, DefaultConstraints) == Some([sleep]);
    assert EventSpan(e1, dayStart, dayEnd) == [a];
    assert EventSpan(e2, dayStart, dayEnd) == [b];
    assert [e1, e2][..1] == [e1] && [e1][..0] == [];
    assert EventSpans([e1], dayStart, dayEnd) == [a];
    assert EventSpans([e1, e2], dayStart, dayEnd) == [a, b];
    assert [sleep] + [a, b] == [sleep, a, b];
  }

  /** Sorting, merging, sweeping and filtering those spans leaves 07:00-09:00 and
      13:00-24:00. */
  lemma OverlappingSpansFree(dayStart: Instant)
    ensures Lists.Filter(Gaps(Merge(Lists.SortBy([Span(dayStart, dayStart + 7 * SecondsPerHour),
                                                  Span(dayStart + 9 * SecondsPerHour, dayStart + 11 * SecondsPerHour),
                                                  Span(dayStart + 10 * SecondsPerHour, dayStart + 13 * SecondsPerHour)], StartOf)),
                              dayStart, dayStart + SecondsPerDay), LongEnough)
      == [Span(dayStart + 7 * SecondsPerHour, dayStart + 9 * SecondsPerHour), Span(dayStart + 13 * SecondsPerHour, dayStart + SecondsPerDay)]
  {
    var h := SecondsPerHour;
    var dayEnd := dayStart + SecondsPerDay;
    var sleep, a, b := Span(dayStart, dayStart + 7 * h), Span(dayStart + 9 * h, dayStart + 11 * h), Span(dayStart + 10 * h, dayStart + 13 * h);
    var blocked := [sleep, a, b];
    assert Lists.SortBy(blocked, StartOf) == blocked by {
      assert blocked[1..] == [a, b] && [a, b][1..] == [b] && [b][1..] == [];
      assert Lists.SortBy([b], StartOf) == [b];
      assert StartOf(a) <= StartOf(b) && [a] + [b] == [a, b];
      assert Lists.SortBy([a, b], StartOf) == [a, b];
      assert StartOf(sleep) <= StartOf(a) && [sleep] + [a, b] == blocked;
    }
    var merged := [sleep, Span(dayStart + 9 * h, dayStart + 13 * h)];
    assert Merge(blocked) == merged by {
      assert blocked[..2] == [sleep, a] && [sleep, a][..1] == [sleep] && [sleep][..0] == [];
      assert Merge([sleep]) == [sleep];
      assert Merge([sleep, a]) == [sleep, a];
    }
    var morning, evening := Span(dayStart + 7 * h, dayStart + 9 * h), Span(dayStart + 13 * h, dayEnd);
    assert Gaps(merged, dayStart, dayEnd) == [morning, evening] by {
      assert merged[1..] == [merged[1]] && merged[1..][1..] == [];
      assert Gaps([], dayStart + 13 * h, dayEnd) == [evening];
      assert Gaps([merged[1]], dayStart + 7 * h, dayEnd) == [morning] + [evening];
    }
    assert Lists.Filter([morning, evening], LongEnough) == [morning, evening] by {
      assert LongEnough(morning) && LongEnough(evening);
      assert [morning, evening][1..] == [evening] && [evening][1..] == [];
    }
  }
}
