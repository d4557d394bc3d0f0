/** The calendar service (src/services/calendarService.ts): the slaughter
    and collection schedules and the fallback each request returns when the
    backend call fails. */
module CalendarService {
  import opened Common

  /** A calendar day: the full year, the month counted from 0 (as the
      fixtures write it) and the day of the month. The fixtures store the
      local midnight of the day as ISO text; the text is not modelled. */
  datatype Day = Day(year: int, month: int, date: int)

  /** `a` comes before `b` in the calendar. */
  predicate Before(a: Day, b: Day)
  {
    a.year < b.year || (a.year == b.year && (a.month < b.month || (a.month == b.month && a.date < b.date)))
  }

  datatype EventType = Slaughter | Collection

  /** The text the request path carries for a type. */
  function TypeName(t: EventType): (name: string)
    ensures t == Slaughter <==> name == "slaughter"
    ensures t == Collection <==> name == "collection"
  {
    match t
    case Slaughter => "slaughter"
    case Collection => "collection"
  }

  datatype CalendarEvent = CalendarEvent(id: int, date: Day, animals: seq<string>, location: string, kind: EventType)

  const S1 := CalendarEvent(1, Day(2025, 5, 20), ["Premium Cow", "Large Goat"], "Central Facility", Slaughter)
  const S2 := CalendarEvent(2, Day(2025, 5, 22), ["Medium Cow", "Standard Goat"], "East Facility", Slaughter)
  const S3 := CalendarEvent(3, Day(2025, 5, 25), ["Large Cow", "Premium Goat"], "West Facility", Slaughter)
  const S4 := CalendarEvent(4, Day(2025, 5, 27), ["Premium Cow", "Medium Goat"], "North Facility", Slaughter)
  const S5 := CalendarEvent(5, Day(2025, 5, 29), ["Standard Cow", "Large Goat"], "South Facility", Slaughter)
  const S6 := CalendarEvent(6, Day(2025, 6, 2), ["Premium Cow", "Medium Goat"], "Central Facility", Slaughter)
  const S7 := CalendarEvent(7, Day(2025, 6, 5), ["Large Cow", "Standard Goat"], "East Facility", Slaughter)
  const S8 := CalendarEvent(8, Day(2025, 6, 8), ["Medium Cow", "Premium Goat"], "West Facility", Slaughter)
  const S9 := CalendarEvent(9, Day(2025, 6, 11), ["Premium Cow", "Large Goat"], "North Facility", Slaughter)
  const S10 := CalendarEvent(10, Day(2025, 6, 15), ["Standard Cow", "Medium Goat"], "South Facility", Slaughter)

  const C1 := CalendarEvent(1, Day(2025, 5, 21), ["Premium Cow", "Large Goat"], "Distribution Center A", Collection)
  const C2 := CalendarEvent(2, Day(2025, 5, 23), ["Medium Cow", "Standard Goat"], "Distribution Center B", Collection)
  const C3 := CalendarEvent(3, Day(2025, 5, 26), ["Large Cow", "Premium Goat"], "Distribution Center C", Collection)
  const C4 := CalendarEvent(4, Day(2025, 5, 28), ["Premium Cow", "Medium Goat"], "Distribution Center D", Collection)
  const C5 := CalendarEvent(5, Day(2025, 5, 30), ["Standard Cow", "Large Goat"], "Distribution Center E", Collection)
  const C6 := CalendarEvent(6, Day(2025, 6, 3), ["Premium Cow", "Large Goat"], "Distribution Center A", Collection)
  const C7 := CalendarEvent(7, Day(2025, 6, 6), ["Medium Cow", "Standard Goat"], "Distribution Center B", Collection)
  const C8 := CalendarEvent(8, Day(2025, 6, 9), ["Large Cow", "Premium Goat"], "Distribution Center C", Collection)
  const C9 := CalendarEvent(9, Day(2025, 6, 12), ["Premium Cow", "Medium Goat"], "Distribution Center D", Collection)
  const C10 := CalendarEvent(10, Day(2025, 6, 16), ["Standard Cow", "Large Goat"], "Distribution Center E", Collection)

  /** `mockSlaughterEvents`. */
  function SlaughterEvents(): seq<CalendarEvent>
  {
    [S1, S2, S3, S4, S5, S6, S7, S8, S9, S10]
  }

  /** `mockCollectionEvents`. */
  function CollectionEvents(): seq<CalendarEvent>
  {
    [C1, C2, C3, C4, C5, C6, C7, C8, C9, C10]
  }

  /** The schedule of a type. */
  function EventsOf(t: EventType): (events: seq<CalendarEvent>)
    ensures t == Slaughter ==> events == SlaughterEvents()
    ensures t == Collection ==> events == CollectionEvents()
  {
    if t == Slaughter then SlaughterEvents() else CollectionEvents()
  }

  /** Every event is filed under its own type. */
  lemma FixtureTypesMatch(t: EventType)
    ensures forall e :: e in EventsOf(t) ==> e.kind == t
  {
    var events := EventsOf(t);
    assert forall i :: 0 <= i < |events| ==> events[i].kind == t;
    forall e | e in events ensures e.kind == t {
      var i :| 0 <= i < |events| && events[i] == e;
    }
  }

  /** The ids of each schedule are 1 to 10 in order. */
  lemma FixtureIdsInOrder(t: EventType)
    ensures |EventsOf(t)| == 10
    ensures forall i :: 0 <= i < 10 ==> EventsOf(t)[i].id == i + 1
  {
  }

  /** Each schedule's next event is on a later day. */
  lemma FixtureDatesStep(t: EventType)
    ensures forall i :: 0 <= i < |EventsOf(t)| - 1 ==> Before(EventsOf(t)[i].date, EventsOf(t)[i + 1].date)
  {
  }

  /** Days of a list that step forward one by one rise throughout. */
  lemma {:induction false} StepwiseIsIncreasing(events: seq<CalendarEvent>)
    requires forall i :: 0 <= i < |events| - 1 ==> Before(events[i].date, events[i + 1].date)
    ensures forall i, j :: 0 <= i < j < |events| ==> Before(events[i].date, events[j].date)
  {
    if |events| > 1 {
      StepwiseIsIncreasing(events[1..]);
      forall j | 1 < j < |events| ensures Before(events[0].date, events[j].date) {
        assert Before(events[1..][0].date, events[1..][j - 1].date);
      }
      forall i, j | 0 <= i < j < |events| ensures Before(events[i].date, events[j].date) {
        if i > 0 {
          assert Before(events[1..][i - 1].date, events[1..][j - 1].date);
        }
      }
    }
  }

  /** The dates within each schedule strictly increase, so no two events of a
      schedule share a day. */
  lemma FixtureDatesIncrease(t: EventType)
    ensures forall i, j :: 0 <= i < j < |EventsOf(t)| ==> Before(EventsOf(t)[i].date, EventsOf(t)[j].date)
  {
    FixtureDatesStep(t);
    StepwiseIsIncreasing(EventsOf(t));
  }

  /** The service's own fallback data, and `getAllEvents`' fallback: the
      slaughter schedule followed by the collection schedule. */
  function AllFixtureEvents(): (events: seq<CalendarEvent>)
    ensures |events| == 20
    ensures events[..10] == SlaughterEvents() && events[10..] == CollectionEvents()
  {
    SlaughterEvents() + CollectionEvents()
  }

  /** `getAllEvents`: the response, or both schedules on failure. */
  function GetAllEvents(response: Remote<seq<CalendarEvent>>): (r: seq<CalendarEvent>)
    ensures response.Success? ==> r == response.value
    ensures response.Failure? ==> r == AllFixtureEvents()
  {
    match response
    case Success(events) => events
    case Failure => SlaughterEvents() + CollectionEvents()
  }

  /** The request path of `getEventsByType`. */
  function EventsPath(t: EventType): (path: string)
    ensures |path| == 13 + |TypeName(t)|
    ensures path[..13] == "/events?type=" && path[13..] == TypeName(t)
  {
    "/events?type=" + TypeName(t)
  }

  /** `getEventsByType`: the response, or on failure the schedule of the
      type. */
  function GetEventsByType(response: Remote<seq<CalendarEvent>>, t: EventType): (r: seq<CalendarEvent>)
    ensures response.Success? ==> r == response.value
    ensures response.Failure? ==> r == EventsOf(t) && forall e :: e in r ==> e.kind == t
  {
    match response
    case Success(events) => events
    case Failure => FixtureTypesMatch(t); if t == Slaughter then SlaughterEvents() else CollectionEvents()
  }

  /** The typed fallbacks are exactly the parts of the full fallback, split by
      type. */
  lemma TypedFallbacksPartitionAll()
    ensures GetAllEvents(Failure) == GetEventsByType(Failure, Slaughter) + GetEventsByType(Failure, Collection)
    ensures forall e :: e in GetAllEvents(Failure) ==> e in GetEventsByType(Failure, e.kind)
  {
    FixtureTypesMatch(Slaughter);
    FixtureTypesMatch(Collection);
  }
}
