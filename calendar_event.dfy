/**
 * The calendar event of the legacy reader (CalendarEvent.java): an immutable record
 * of a calendar instance, its wire time format, and its ordering, in which all-day
 * events come first among events that start at the same encoded time.
 */
module CalendarEvents {
  import opened JavaLang
  import opened AgendaItems

  /** The zone ID all-day events are read in. */
  const UTC: string := "UTC"

  /** Every field is final: an event is a value. Times are epoch milliseconds. */
  datatype CalendarEvent = CalendarEvent(title: Option<string>, location: Option<string>, startTime: int, endTime: int, allDay: bool)

  /** The zone whose calendar fields getPebbleTimeFormat reads: UTC for all-day events, the default zone (None) otherwise. */
  function EventZone(allDay: bool): Option<string>
  {
    if allDay then Some(UTC) else None
  }

  /** getPebbleTimeFormat(time, allDay): the packed calendar fields of the instant, in Java int arithmetic. */
  function EventTimeFormat(time: int, allDay: bool, p: Platform): Int32
  {
    Wrap32(Pack(p.fieldsOf(time, EventZone(allDay))))
  }

  function EventStart(e: CalendarEvent, p: Platform): Int32
  {
    EventTimeFormat(e.startTime, e.allDay, p)
  }

  function EventEnd(e: CalendarEvent, p: Platform): Int32
  {
    EventTimeFormat(e.endTime, e.allDay, p)
  }

  /**
   * compareTo: the encoded start times subtracted as ints; on a tie an all-day event
   * comes before a timed one, and two events of the same kind compare equal.
   */
  function Compare(a: CalendarEvent, b: CalendarEvent, p: Platform): Int32
  {
    var diff := Wrap32(EventStart(a, p) - EventStart(b, p));
    if diff == 0 then
      if b.allDay == a.allDay then 0 else if a.allDay then -1 else 1
    else diff
  }

  /** The events whose start subtraction cannot overflow: the encoded start is a non-negative int. */
  predicate EventComparable(e: CalendarEvent, p: Platform)
  {
    EventStart(e, p) >= 0
  }

  /**
   * Without overflow, compareTo is negative exactly when a starts earlier, or at the same
   * encoded time as an all-day event against a timed one; it is 0 exactly when the encoded
   * starts and the all-day flags agree.
   */
  lemma CompareMeaning(a: CalendarEvent, b: CalendarEvent, p: Platform)
    requires EventComparable(a, p) && EventComparable(b, p)
    ensures Compare(a, b, p) < 0 <==>
              EventStart(a, p) < EventStart(b, p) || (EventStart(a, p) == EventStart(b, p) && a.allDay && !b.allDay)
    ensures Compare(a, b, p) == 0 <==> EventStart(a, p) == EventStart(b, p) && a.allDay == b.allDay
  {
  }

  /** Without overflow, compareTo is antisymmetric in sign. */
  lemma CompareAntisymmetric(a: CalendarEvent, b: CalendarEvent, p: Platform)
    requires EventComparable(a, p) && EventComparable(b, p)
    ensures Sign(Compare(b, a, p)) == -Sign(Compare(a, b, p))
  {
    CompareMeaning(a, b, p);
    CompareMeaning(b, a, p);
  }

  /** Without overflow, "compareTo <= 0" is transitive. */
  lemma CompareTransitive(a: CalendarEvent, b: CalendarEvent, c: CalendarEvent, p: Platform)
    requires EventComparable(a, p) && EventComparable(b, p) && EventComparable(c, p)
    requires Compare(a, b, p) <= 0 && Compare(b, c, p) <= 0
    ensures Compare(a, c, p) <= 0
  {
    CompareMeaning(a, b, p);
    CompareMeaning(b, c, p);
    CompareMeaning(a, c, p);
  }

  /**
   * An all-day event is encoded exactly as an agenda item in the UTC zone is, and a timed
   * one as an agenda item in the default zone: the watch reads the UTC calendar date of
   * an all-day event.
   */
  lemma EventTimeAsItemTime(e: CalendarEvent, p: Platform)
    ensures EventStart(e, p) == PebbleTimeFormat(Some(e.startTime), if e.allDay then Some(UTC) else None, p)
    ensures EventEnd(e, p) == PebbleTimeFormat(Some(e.endTime), if e.allDay then Some(UTC) else None, p)
  {
  }

  /**
   * For valid calendar fields in the years 1900..2453 the encoded start is a non-negative
   * int from which each field of the instant, read in UTC for an all-day event, comes back.
   */
  lemma EventStartRecoverable(e: CalendarEvent, p: Platform)
    requires ValidFields(p.fieldsOf(e.startTime, EventZone(e.allDay))) && InWireYears(p.fieldsOf(e.startTime, EventZone(e.allDay)))
    ensures EventComparable(e, p)
    ensures var f := p.fieldsOf(e.startTime, if e.allDay then Some(UTC) else None);
            Unpack(EventStart(e, p)) == Unpacked(f.minute, f.hour, Weekday(f), f.dayOfMonth, f.month, f.year)
  {
    var f := p.fieldsOf(e.startTime, EventZone(e.allDay));
    PackFitsInt(f);
    PackRecoverable(f);
  }

  /**
   * Outside that range the subtraction overflows: an event encoded as 0 and one encoded
   * as Integer.MIN_VALUE each compare below the other.
   */
  lemma CompareOverflowExample(p: Platform, a: CalendarEvent, b: CalendarEvent)
    requires EventStart(a, p) == 0 && EventStart(b, p) == INT_MIN
    ensures Compare(a, b, p) < 0 && Compare(b, a, p) < 0
  {
  }
}
