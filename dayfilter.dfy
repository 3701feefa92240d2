/** The planner's day filter run over the events the Google integration produced
    (app/services/scheduler.py, `day_events` in `generate_plan`), as Python evaluates it
    on datetimes with and without a time zone. */
module DayFilter {
  import opened Wrappers
  import opened Schemas
  import Lists
  import Google
  import Allocator

  /** `generate_plan`'s `day_events` filter as written, run over the events the Google
      integration produced: `e.end > day_start` compares each end with an aware midnight, and Python
      raises TypeError when the end is naive; `e.start < day_end` is reached only when the
      first comparison holds, and raises the same way for a naive start. */
  function DayEventsAsWritten(items: seq<Google.CalendarItem>, parse: string -> Option<Instant>, dayStart: Instant)
    : (r: Result<seq<CalendarEvent>, string>)
    requires Google.EventsOf(items, parse).Success?
    ensures r.Success? ==> |r.value| <= |Google.EventsOf(items, parse).value|
    ensures r.Failure? ==> r.error == "TypeError"
    decreases |items|
  {
    if items == [] then Success([])
    else
      var item := items[|items| - 1];
      match DayEventsAsWritten(items[..|items| - 1], parse, dayStart)
      case Failure(e) => Failure(e)
      case Success(earlier) =>
        if !Google.Usable(item) then Success(earlier)
        else
          var ev := Google.EventOf(item, parse).value;
          if Google.NaiveTime(item.end) then Failure("TypeError")
          else if !(ev.end > dayStart) then Success(earlier)
          else if Google.NaiveTime(item.start) then Failure("TypeError")
          else if ev.start < dayStart + SecondsPerDay then Success(earlier + [ev])
          else Success(earlier)
  }

  /** As written, one all-day item (both ends given by a date) in the listing makes the
      day filter raise, whatever the day: `generate_plan` filters its first day before it
      places any block, so plan generation fails. */
  lemma {:induction false} AllDayItemRaises(items: seq<Google.CalendarItem>, parse: string -> Option<Instant>, dayStart: Instant, k: nat)
    requires Google.EventsOf(items, parse).Success?
    requires k < |items| && Google.Usable(items[k]) && Google.AllDay(items[k]) && items[k].end.dateTime.None?
    ensures DayEventsAsWritten(items, parse, dayStart) == Failure("TypeError")
    decreases |items|
  {
    var front := items[..|items| - 1];
    if k < |items| - 1 {
      assert front[k] == items[k];
      AllDayItemRaises(front, parse, dayStart, k);
    }
  }

  /** When no usable item has a date-only time, the day filter as written is the planner's
      `DayEvents` over the fetched events: the comparisons are between instants. */
  lemma {:induction false} AwareItemsFilter(items: seq<Google.CalendarItem>, parse: string -> Option<Instant>, dayStart: Instant)
    requires Google.EventsOf(items, parse).Success?
    requires forall i :: 0 <= i < |items| && Google.Usable(items[i]) ==> !Google.NaiveTime(items[i].start) && !Google.NaiveTime(items[i].end)
    ensures DayEventsAsWritten(items, parse, dayStart) == Success(Allocator.DayEvents(Google.EventsOf(items, parse).value, dayStart))
    decreases |items|
  {
    if items != [] {
      var front, item := items[..|items| - 1], items[|items| - 1];
      assert forall i :: 0 <= i < |front| ==> front[i] == items[i];
      AwareItemsFilter(front, parse, dayStart);
      var earlier := Google.EventsOf(front, parse).value;
      var kept := Allocator.DayEvents(earlier, dayStart);
      assert DayEventsAsWritten(front, parse, dayStart) == Success(kept);
      if Google.Usable(item) {
        var ev := Google.EventOf(item, parse).value;
        assert !Google.NaiveTime(item.start) && !Google.NaiveTime(item.end);
        assert Google.EventsOf(items, parse).value == earlier + [ev];
        var p := Allocator.OverlapsDayOf(dayStart);
        Lists.FilterAppend(earlier, [ev], p);
        if Allocator.OverlapsDay(ev, dayStart) {
          assert Lists.Filter([ev], p) == [ev];
          assert DayEventsAsWritten(items, parse, dayStart) == Success(kept + [ev]);
        } else {
          assert Lists.Filter([ev], p) == [];
          assert Allocator.DayEvents(earlier + [ev], dayStart) == kept + [] == kept;
          assert DayEventsAsWritten(items, parse, dayStart) == Success(kept);
        }
      } else {
        assert Google.EventsOf(items, parse).value == earlier;
      }
    }
  }
}
