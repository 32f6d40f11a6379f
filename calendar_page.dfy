/**
 * The calendar page (src/pages/milestones/CalendarPage.tsx): a month grid of
 * whole weeks, Sunday to Saturday, covering the displayed month, and the
 * events of each day under the event-type filter.
 *
 * A date is an integer day number; day 0 is a Sunday, so the weekday of `d`
 * is `d % 7` (0 = Sunday, 6 = Saturday; Dafny's `%` is never negative).
 * The month is given by its first day and its length, which is what
 * `startOfMonth`/`endOfMonth` compute from the current date.
 */
module CalendarPage {
  import opened Common

  function Weekday(d: int): int { d % 7 }

  /** `startOfWeek`: the Sunday on or before `d`. */
  function StartOfWeek(d: int): (r: int)
    ensures Weekday(r) == 0 && d - 6 <= r <= d
  {
    d - Weekday(d)
  }

  /** `endOfWeek`: the Saturday on or after `d`. */
  function EndOfWeek(d: int): (r: int)
    ensures Weekday(r) == 6 && d <= r <= d + 6
  {
    d + (6 - Weekday(d))
  }

  /** The first and last day drawn for the month starting on `monthStart`. */
  function CalendarStart(monthStart: int): int { StartOfWeek(monthStart) }

  function CalendarEnd(monthStart: int, monthLength: nat): int
    requires monthLength >= 1
  {
    EndOfWeek(monthStart + monthLength - 1)
  }

  /** The days from calendarStart to calendarEnd, one after the other. */
  function CalendarDays(monthStart: int, monthLength: nat): (r: seq<int>)
    requires monthLength >= 1
    ensures |r| == CalendarEnd(monthStart, monthLength) - CalendarStart(monthStart) + 1
    ensures forall i | 0 <= i < |r| :: r[i] == CalendarStart(monthStart) + i
  {
    var start := CalendarStart(monthStart);
    seq(CalendarEnd(monthStart, monthLength) - start + 1, i => start + i)
  }

  /** `generateCalendarDays`: push `day`, then step to the next day, while
      `day <= calendarEnd`. */
  method GenerateCalendarDays(monthStart: int, monthLength: nat) returns (days: seq<int>)
    requires monthLength >= 1
    ensures days == CalendarDays(monthStart, monthLength)
  {
    var calendarStart := CalendarStart(monthStart);
    var calendarEnd := CalendarEnd(monthStart, monthLength);
    days := [];
    var day := calendarStart;
    while day <= calendarEnd
      invariant calendarStart <= day <= calendarEnd + 1
      invariant |days| == day - calendarStart
      invariant forall i | 0 <= i < |days| :: days[i] == calendarStart + i
      decreases calendarEnd - day
    {
      days := days + [day];
      day := day + 1;
    }
  }

  /** The grid runs from a Sunday to a Saturday through consecutive days, holds
      whole weeks (four to six of them for a real month), and shows every day of
      the month exactly once. */
  lemma {:induction false} CalendarDaysShape(monthStart: int, monthLength: nat)
    requires 28 <= monthLength <= 31
    ensures var r := CalendarDays(monthStart, monthLength);
            |r| > 0 &&
            Weekday(r[0]) == 0 && monthStart - 6 <= r[0] <= monthStart &&
            Weekday(r[|r| - 1]) == 6 &&
            monthStart + monthLength - 1 <= r[|r| - 1] <= monthStart + monthLength + 5 &&
            (forall i | 0 <= i < |r| - 1 :: r[i + 1] == r[i] + 1) &&
            |r| % 7 == 0 && 28 <= |r| <= 42 &&
            (forall d | monthStart <= d < monthStart + monthLength :: d in r) &&
            (forall i, j | 0 <= i < j < |r| :: r[i] != r[j])
  {
    var r := CalendarDays(monthStart, monthLength);
    var s, e := CalendarStart(monthStart), CalendarEnd(monthStart, monthLength);
    assert s == 7 * (s / 7) && e == 7 * (e / 7) + 6;
    assert |r| == 7 * (e / 7 - s / 7 + 1);
    forall d | monthStart <= d < monthStart + monthLength ensures d in r {
      assert r[d - s] == d;
    }
  }

  // ---------------------------------------------------------------------
  // Events
  // ---------------------------------------------------------------------

  datatype EventType = MilestoneEvent | DeliverableEvent | PoEvent | InvoiceEvent | TaskEvent
  datatype EventStatus = OnTrack | AtRisk | Completed | Overdue

  datatype CalendarEvent = CalendarEvent(
    id: string, title: string, date: int, eventType: EventType, project: string, status: EventStatus)

  /** `filteredEvents`; `None` is the empty filter. */
  function FilteredEvents(events: seq<CalendarEvent>, eventFilter: Option<EventType>): (r: seq<CalendarEvent>)
    ensures Subsequence(r, events)
    ensures eventFilter.Some? ==> forall i | 0 <= i < |r| :: r[i].eventType == eventFilter.value
    ensures eventFilter.None? ==> r == events
  {
    KeepIfSatisfies(events, (e: CalendarEvent) => eventFilter.None? || e.eventType == eventFilter.value);
    KeepIf(events, (e: CalendarEvent) => eventFilter.None? || e.eventType == eventFilter.value)
  }

  /** `getEventsForDate(date)`: the filtered events on that day. */
  function EventsForDate(events: seq<CalendarEvent>, eventFilter: Option<EventType>, date: int): (r: seq<CalendarEvent>)
    ensures forall i | 0 <= i < |r| :: r[i].date == date
  {
    var f := FilteredEvents(events, eventFilter);
    KeepIfSatisfies(f, (e: CalendarEvent) => e.date == date);
    KeepIf(f, (e: CalendarEvent) => e.date == date)
  }

  /** An event is listed for a day exactly when it falls on that day and passes the filter. */
  lemma EventsForDateMembers(events: seq<CalendarEvent>, eventFilter: Option<EventType>, date: int, e: CalendarEvent)
    ensures e in EventsForDate(events, eventFilter, date) <==>
            e in events && e.date == date && (eventFilter.None? || e.eventType == eventFilter.value)
  {
    var p := (x: CalendarEvent) => eventFilter.None? || x.eventType == eventFilter.value;
    var q := (x: CalendarEvent) => x.date == date;
    KeepIfMembers(events, p);
    KeepIfMembers(FilteredEvents(events, eventFilter), q);
  }

  /** An event is drawn in the cell of one day only. */
  lemma EventInOneCell(events: seq<CalendarEvent>, eventFilter: Option<EventType>, d1: int, d2: int, e: CalendarEvent)
    requires d1 != d2 && e in EventsForDate(events, eventFilter, d1)
    ensures e !in EventsForDate(events, eventFilter, d2)
  {
    EventsForDateMembers(events, eventFilter, d1, e);
    EventsForDateMembers(events, eventFilter, d2, e);
  }

  const CellLimit := 2

  /** A cell draws the day's first two events and "+{k} more" for the rest. */
  function DayCell(events: seq<CalendarEvent>, eventFilter: Option<EventType>, date: int): (r: Overflow<CalendarEvent>)
    ensures |r.shown| == Min(CellLimit, |EventsForDate(events, eventFilter, date)|)
    ensures r.hidden > 0 <==> |EventsForDate(events, eventFilter, date)| > CellLimit
    ensures r.hidden > 0 ==> r.hidden == |EventsForDate(events, eventFilter, date)| - 2
    ensures r.shown + EventsForDate(events, eventFilter, date)[|r.shown|..] == EventsForDate(events, eventFilter, date)
  {
    Truncate(EventsForDate(events, eventFilter, date), CellLimit)
  }

  /** A day of the grid is drawn as part of the month (`isSameMonth`) or greyed. */
  function InDisplayedMonth(d: int, monthStart: int, monthLength: nat): bool
  {
    monthStart <= d < monthStart + monthLength
  }

  /** The leading and trailing greyed days are fewer than a week on each side. */
  lemma GreyedDaysAtEdges(monthStart: int, monthLength: nat)
    requires 28 <= monthLength <= 31
    ensures var r := CalendarDays(monthStart, monthLength);
            forall i | 0 <= i < |r| && !InDisplayedMonth(r[i], monthStart, monthLength) :: i < 6 || i >= |r| - 6
  {
    CalendarDaysShape(monthStart, monthLength);
  }
}
