/** The calendar page (src/pages/Calendar.tsx): its own three slaughter and
    three collection events, the events of the selected day, the days the
    calendar marks, and the test that marks a day. */
module CalendarPage {
  import opened Common
  import opened CalendarService

  /** A JavaScript date as the page reads it: its local calendar day and the
      milliseconds since that day's midnight. */
  datatype Instant = Instant(day: Day, timeOfDay: nat)

  /** `getDate()`, `getMonth()` and `getFullYear()` all agree. */
  predicate SameDay(a: Instant, b: Instant)
  {
    a.day.date == b.day.date && a.day.month == b.day.month && a.day.year == b.day.year
  }

  datatype PageEvent = PageEvent(id: int, date: Instant, animals: seq<string>, location: string)

  /** `new Date(y, m, d)`: local midnight of the day. */
  function Midnight(year: int, month: int, date: int): Instant
  {
    Instant(Day(year, month, date), 0)
  }

  /** `slaughterEvents`. */
  function PageSlaughterEvents(): seq<PageEvent>
  {
    [PageEvent(1, Midnight(2025, 5, 20), ["Premium Cow", "Large Goat"], "Central Facility"),
     PageEvent(2, Midnight(2025, 5, 22), ["Medium Cow", "Standard Goat"], "East Facility"),
     PageEvent(3, Midnight(2025, 5, 25), ["Large Cow", "Premium Goat"], "West Facility")]
  }

  /** `collectionEvents`. */
  function PageCollectionEvents(): seq<PageEvent>
  {
    [PageEvent(1, Midnight(2025, 5, 21), ["Premium Cow", "Large Goat"], "Distribution Center A"),
     PageEvent(2, Midnight(2025, 5, 23), ["Medium Cow", "Standard Goat"], "Distribution Center B"),
     PageEvent(3, Midnight(2025, 5, 26), ["Large Cow", "Premium Goat"], "Distribution Center C")]
  }

  /** The list the selected tab shows. */
  function EventsShown(t: EventType): seq<PageEvent>
  {
    if t == Slaughter then PageSlaughterEvents() else PageCollectionEvents()
  }

  /** The page's events agree in day, animals and place with the first three
      of the service's schedule of the same type. */
  lemma PageEventsAreServicePrefix(t: EventType)
    ensures |EventsShown(t)| == 3
    ensures forall i :: 0 <= i < 3 ==>
              EventsShown(t)[i].id == EventsOf(t)[i].id && EventsShown(t)[i].date.day == EventsOf(t)[i].date &&
              EventsShown(t)[i].animals == EventsOf(t)[i].animals &&
              EventsShown(t)[i].location == EventsOf(t)[i].location
  {
  }

  /** Each tab's three events fall on three different days, so a day test
      keeps at most one of them. */
  lemma {:induction false} AtMostOneEventADay(t: EventType, day: Instant, p: PageEvent -> bool)
    requires forall e :: p(e) == SameDay(e.date, day)
    ensures |Filter(EventsShown(t), p)| <= 1
  {
    var s := EventsShown(t);
    FilterSuffixStep(s, 0, p);
    FilterSuffixStep(s, 1, p);
    FilterSuffixStep(s, 2, p);
    assert s[0..] == s && s[3..] == [];
  }

  /** `getEventsForDate`: no events without a selected date; otherwise the
      events of the tab's list on the selected day, of which there is at most
      one. */
  function EventsForDate(t: EventType, selected: Option<Instant>): (r: seq<PageEvent>)
    ensures selected.None? ==> r == []
    ensures selected.Some? ==> forall e :: e in r <==> e in EventsShown(t) && SameDay(e.date, selected.value)
    ensures selected.Some? ==> |r| <= 1
  {
    match selected
    case None => []
    case Some(date) =>
      var p := (e: PageEvent) => SameDay(e.date, date);
      AtMostOneEventADay(t, date, p);
      Filter(EventsShown(t), p)
  }

  /** `getDatesWithEvents`: the dates of the tab's list, in its order. */
  function DatesWithEvents(t: EventType): (dates: seq<Instant>)
    ensures |dates| == |EventsShown(t)|
    ensures forall i :: 0 <= i < |dates| ==> dates[i] == EventsShown(t)[i].date
  {
    seq(|EventsShown(t)|, i requires 0 <= i < |EventsShown(t)| => EventsShown(t)[i].date)
  }

  /** The day test: some marked date falls on the same day. */
  predicate IsBooked(dates: seq<Instant>, day: Instant)
  {
    exists d :: d in dates && SameDay(d, day)
  }

  /** The event at a position of the tab's list is marked by the date at the
      same position. */
  lemma DateOfEventMarked(t: EventType, e: PageEvent)
    requires e in EventsShown(t)
    ensures IsBooked(DatesWithEvents(t), e.date)
  {
    var events, dates := EventsShown(t), DatesWithEvents(t);
    var i :| 0 <= i < |events| && events[i] == e;
    assert dates[i] == e.date && SameDay(dates[i], e.date);
  }

  /** A marked day lists an event. */
  lemma BookedHasEvents(t: EventType, day: Instant)
    requires IsBooked(DatesWithEvents(t), day)
    ensures EventsForDate(t, Some(day)) != []
  {
    var events, dates := EventsShown(t), DatesWithEvents(t);
    var d :| d in dates && SameDay(d, day);
    var i :| 0 <= i < |dates| && dates[i] == d;
    assert events[i] in EventsForDate(t, Some(day));
  }

  /** A day is marked exactly when the page lists an event for it: every event
      shown for a day falls on a marked day, and every marked day shows an
      event. */
  lemma BookedIffEvents(t: EventType, day: Instant)
    ensures IsBooked(DatesWithEvents(t), day) <==> EventsForDate(t, Some(day)) != []
    ensures forall e :: e in EventsForDate(t, Some(day)) ==> IsBooked(DatesWithEvents(t), e.date)
  {
    var shown := EventsForDate(t, Some(day));
    if IsBooked(DatesWithEvents(t), day) {
      BookedHasEvents(t, day);
    }
    if shown != [] {
      DateOfEventMarked(t, shown[0]);
      assert SameDay(shown[0].date, day);
    }
    forall e | e in shown ensures IsBooked(DatesWithEvents(t), e.date) {
      DateOfEventMarked(t, e);
    }
  }

  /** The time of day never matters: two instants on the same day select the
      same events. */
  lemma TimeOfDayIgnored(t: EventType, a: Instant, b: Instant)
    requires a.day == b.day
    ensures EventsForDate(t, Some(a)) == EventsForDate(t, Some(b))
  {
    FilterExtensional(EventsShown(t), (e: PageEvent) => SameDay(e.date, a), (e: PageEvent) => SameDay(e.date, b));
  }
}
