/**
 * The bundled calendar plugin (AgendaCalendarService.getEvents): the same cursor and
 * filters as the legacy reader, but every kept row becomes an agenda item laid out by
 * the user's line preferences, and the whole list is sorted by compareTo and only then
 * trimmed to maxNum.
 */
module AgendaCalendar {
  import opened JavaLang
  import opened AgendaItems
  import opened ItemSort
  import opened CalendarEvents
  import opened CalendarReader

  /** AgendaCalendarProvider.getPluginId. */
  const CALENDAR_PLUGIN_ID: string := "de.janbo.agendawatchface.calendar"
  /** onStartCommand publishes at most this many items. */
  const PUBLISHED_ITEMS: int := 30

  /**
   * The layout preferences: the text codes of the two lines (pref_layout_text_1/2) and of
   * the two lines of all-day events (pref_layout_ad_text_1/2), each "1" by default, and
   * whether the second line is shown (pref_layout_show_row2, default true;
   * pref_layout_ad_show_row2, default false).
   */
  datatype LayoutPrefs = LayoutPrefs(text1: string, text2: string, adText1: string, adText2: string, showRow2: bool, adShowRow2: bool)

  /** The layout when the user has set no preference. */
  const DefaultLayout: LayoutPrefs := LayoutPrefs("1", "1", "1", "1", true, false)

  /** The code "1" selects the TITLE column; any other code selects EVENT_LOCATION. */
  function LineText(code: string, row: Row): Option<string>
  {
    if code == "1" then row.title else row.location
  }

  /** `new Line()` with the selected text, bold for the title, and no time for an all-day event. */
  function RowLine(code: string, row: Row, allday: bool, p: Platform): Line
  {
    var l := DefaultLine.(text := LineText(code, row), textBold := code == "1");
    if allday then l.(timeDisplay := Some(TimeDisplayType(p.noneOrdinal))) else l
  }

  predicate ShowsRow2(allday: bool, layout: LayoutPrefs)
  {
    (allday && layout.adShowRow2) || (!allday && layout.showRow2)
  }

  /** The item built for a kept row. */
  function CalendarItem(row: Row, layout: LayoutPrefs, p: Platform): AgendaItem
  {
    var allday := row.allDay != 0;
    var code1 := if allday then layout.adText1 else layout.text1;
    var code2 := if allday then layout.adText2 else layout.text2;
    var item := NewItem(Some(CALENDAR_PLUGIN_ID)).value;
    var item := item.(startTime := Some(row.begin), endTime := Some(row.end));
    var item := if allday then item.(timezone := Some(UTC)) else item;
    var item := item.(line1 := Some(RowLine(code1, row, allday, p)));
    if ShowsRow2(allday, layout) then item.(line2 := Some(RowLine(code2, row, allday, p))) else item
  }

  function ItemsOf(rows: seq<Row>, layout: LayoutPrefs, p: Platform): (r: seq<AgendaItem>)
    ensures |r| == |rows| && forall k :: 0 <= k < |rows| ==> r[k] == CalendarItem(rows[k], layout, p)
    ensures HaveIds(r)
  {
    seq(|rows|, k requires 0 <= k < |rows| => CalendarItem(rows[k], layout, p))
  }

  /**
   * What getEvents returns: the items of all kept rows, sorted by compareTo, the first
   * maxNum kept; a negative maxNum makes subList throw.
   */
  function CalendarItems(rows: seq<Row>, maxNum: int, now: int, prefs: RowPrefs, layout: LayoutPrefs, p: Platform): Result<seq<AgendaItem>>
  {
    var sorted := Sort(ItemsOf(KeptRows(rows, now, prefs), layout, p), p);
    if |sorted| > maxNum then
      if maxNum < 0 then Throws(IndexOutOfBounds) else Ok(sorted[..maxNum])
    else Ok(sorted)
  }

  /**
   * getEvents (AgendaCalendarService.java:81-149): every row of the cursor is read and
   * filtered, the items are sorted, then trimmed.
   */
  method GetEvents(rows: seq<Row>, maxNum: int, now: int, prefs: RowPrefs, layout: LayoutPrefs, p: Platform)
    returns (r: Result<seq<AgendaItem>>)
    ensures r == CalendarItems(rows, maxNum, now, prefs, layout, p)
  {
    var events: seq<AgendaItem> := [];
    var i := 0;
    while i < |rows|
      invariant 0 <= i <= |rows|
      invariant events == ItemsOf(KeptRows(rows[..i], now, prefs), layout, p)
    {
      var row := rows[i];
      assert rows[..i + 1] == rows[..i] + [row];
      KeptRowsSnoc(rows[..i], row, now, prefs);
      i := i + 1;
      if !prefs.showAllDayEvents && row.allDay != 0 {
        continue;
      }
      if row.allDay == 0 && row.end < now {
        continue;
      }
      if !Picked(prefs, row.calendarId) {
        continue;
      }
      events := events + [CalendarItem(row, layout, p)];
    }
    assert rows[..i] == rows;
    events := Sort(events, p);
    if |events| > maxNum {
      if maxNum < 0 {
        return Throws(IndexOutOfBounds);
      }
      events := events[..maxNum];
    }
    return Ok(events);
  }

  /**
   * The layout of an item: owned by the calendar plugin, BEGIN and END as its times, the
   * UTC zone exactly for all-day events, whose lines show the time display NONE while a
   * timed event's lines leave it unset; no line sets a countdown; each line shows the
   * title in bold for its code "1" and the location otherwise; the second line is present
   * exactly when the preference for the event's kind asks for it.
   */
  lemma CalendarItemLayout(row: Row, layout: LayoutPrefs, p: Platform)
    ensures var x := CalendarItem(row, layout, p);
            var allday := row.allDay != 0;
            var code1 := if allday then layout.adText1 else layout.text1;
            var code2 := if allday then layout.adText2 else layout.text2;
            var time := if allday then Some(TimeDisplayType(p.noneOrdinal)) else None;
            && x.pluginId == Some(CALENDAR_PLUGIN_ID) && x.priority == 0
            && x.startTime == Some(row.begin) && x.endTime == Some(row.end)
            && (x.timezone == Some(UTC) <==> allday) && (x.timezone.None? <==> !allday)
            && x.line1.Some?
            && (x.line1.value.textBold <==> code1 == "1")
            && x.line1.value.text == (if code1 == "1" then row.title else row.location)
            && x.line1.value.timeDisplay == time
            && x.line1.value.timeShowCountdown.None?
            && (x.line2.Some? <==> (allday && layout.adShowRow2) || (!allday && layout.showRow2))
            && (x.line2.Some? ==>
                  && x.line2.value.text == (if code2 == "1" then row.title else row.location)
                  && (x.line2.value.textBold <==> code2 == "1")
                  && x.line2.value.timeDisplay == time
                  && x.line2.value.timeShowCountdown.None?)
  {
  }

  /**
   * Under the default layout both text codes are "1": line 1 is the title in bold, and a
   * timed event repeats that very line as line 2, while an all-day event has no line 2.
   */
  lemma DefaultLayoutItem(row: Row, p: Platform)
    ensures var x := CalendarItem(row, DefaultLayout, p);
            && x.line1.Some? && x.line1.value.text == row.title && x.line1.value.textBold
            && (x.line2.Some? <==> row.allDay == 0)
            && (x.line2.Some? ==> x.line2 == x.line1)
  {
  }

  /**
   * An item's encoded start and end are those of the legacy reader's event for the same
   * row: both read an all-day event's date in UTC and a timed event in the default zone.
   */
  lemma CalendarItemTimesAgree(row: Row, layout: LayoutPrefs, p: Platform)
    ensures StartTimeInPebbleFormat(CalendarItem(row, layout, p), p) == EventStart(EventOf(row), p)
    ensures EndTimeInPebbleFormat(CalendarItem(row, layout, p), p) == EventEnd(EventOf(row), p)
  {
    EventTimeAsItemTime(EventOf(row), p);
  }

  /**
   * With UTC a known zone and NONE a value of TimeDisplayType, every item the plugin builds
   * survives the Bundle encoding that carries it to the watchface service.
   */
  lemma CalendarItemTravels(row: Row, layout: LayoutPrefs, p: Platform)
    requires UTC in p.knownZones && p.noneOrdinal < p.timeDisplayCount
    ensures ItemValid(CalendarItem(row, layout, p), p)
    ensures FromBundle(ToBundle(CalendarItem(row, layout, p)), p) == Ok(CalendarItem(row, layout, p))
  {
    var x := CalendarItem(row, layout, p);
    BundleRoundTrip(x, p);
    ItemEqualsIsEquality(FromBundle(ToBundle(x), p).value, x);
  }

  /** The calendar fields of a row's start, read in the zone its kind uses. */
  function StartFields(row: Row, p: Platform): Fields
  {
    p.fieldsOf(row.begin, EventZone(row.allDay != 0))
  }

  /** An item whose start is a valid date in the years 1900..2453 cannot overflow compareTo. */
  lemma CalendarItemComparable(row: Row, layout: LayoutPrefs, p: Platform)
    requires ValidFields(StartFields(row, p)) && InWireYears(StartFields(row, p))
    ensures Comparable(CalendarItem(row, layout, p), p)
  {
    CalendarItemTimesAgree(row, layout, p);
    EventStartRecoverable(EventOf(row), p);
  }

  /**
   * getEvents throws exactly for a negative maxNum; otherwise it returns at most maxNum
   * items, each built from a row of the cursor that passes the filters, and when at most
   * maxNum rows pass it returns all their items, reordered.
   */
  lemma CalendarItemsContents(rows: seq<Row>, maxNum: int, now: int, prefs: RowPrefs, layout: LayoutPrefs, p: Platform)
    ensures CalendarItems(rows, maxNum, now, prefs, layout, p).Throws? <==> maxNum < 0
    ensures var r := CalendarItems(rows, maxNum, now, prefs, layout, p);
            r.Ok? ==> && |r.value| <= maxNum
                      && |r.value| == (if |KeptRows(rows, now, prefs)| <= maxNum then |KeptRows(rows, now, prefs)| else maxNum)
                      && multiset(r.value) <= multiset(ItemsOf(KeptRows(rows, now, prefs), layout, p))
                      && (forall x :: x in r.value ==> exists row :: row in rows && RowKept(row, now, prefs) && x == CalendarItem(row, layout, p))
                      && (|KeptRows(rows, now, prefs)| <= maxNum ==>
                            multiset(r.value) == multiset(ItemsOf(KeptRows(rows, now, prefs), layout, p)))
  {
    var kept := KeptRows(rows, now, prefs);
    var items := ItemsOf(kept, layout, p);
    var sorted := Sort(items, p);
    SortPermutes(items, p);
    KeptRowsMembers(rows, now, prefs);
    var r := CalendarItems(rows, maxNum, now, prefs, layout, p);
    if r.Ok? {
      SortTrimContents(items, maxNum, p);
      assert r.value == Trim(sorted, maxNum);
      forall x | x in r.value ensures exists row :: row in rows && RowKept(row, now, prefs) && x == CalendarItem(row, layout, p) {
        var k :| 0 <= k < |r.value| && r.value[k] == x;
        assert x == sorted[k];
        assert x in multiset(items);
        var j :| 0 <= j < |items| && items[j] == x;
        assert kept[j] in kept;
      }
    }
  }

  /**
   * The items come back sorted when every kept row starts at a valid date in the years
   * 1900..2453, and the trim then keeps the earliest: no dropped item compares below a
   * kept one.
   */
  lemma CalendarItemsSorted(rows: seq<Row>, maxNum: int, now: int, prefs: RowPrefs, layout: LayoutPrefs, p: Platform)
    requires forall row :: row in rows && RowKept(row, now, prefs) ==> ValidFields(StartFields(row, p)) && InWireYears(StartFields(row, p))
    ensures var r := CalendarItems(rows, maxNum, now, prefs, layout, p);
            r.Ok? ==> HaveIds(r.value) && Sorted(r.value, p)
    ensures var r := CalendarItems(rows, maxNum, now, prefs, layout, p);
            var items := ItemsOf(KeptRows(rows, now, prefs), layout, p);
            r.Ok? ==> forall x, y :: x in r.value && y in multiset(items) - multiset(r.value) ==>
                        x.pluginId.Some? && y.pluginId.Some? && CompareTo(x, y, p) <= 0
  {
    var kept := KeptRows(rows, now, prefs);
    var items := ItemsOf(kept, layout, p);
    KeptRowsMembers(rows, now, prefs);
    forall k | 0 <= k < |items| ensures Comparable(items[k], p) {
      assert kept[k] in kept;
      CalendarItemComparable(kept[k], layout, p);
    }
    SortSorted(items, p);
    var sorted := Sort(items, p);
    if |sorted| > maxNum && maxNum >= 0 {
      PrefixSorted(sorted, maxNum, p);
    }
    if maxNum >= 0 {
      SortTrimKeepsLeast(items, maxNum, p);
      assert CalendarItems(rows, maxNum, now, prefs, layout, p).value == Trim(sorted, maxNum);
    }
  }

  /**
   * onStartCommand (line 51): the plugin publishes getEvents(30), which cannot throw:
   * the first 30 items in compareTo order, or all of them when fewer rows pass.
   */
  method StartCommand(rows: seq<Row>, now: int, prefs: RowPrefs, layout: LayoutPrefs, p: Platform)
    returns (published: seq<AgendaItem>)
    ensures CalendarItems(rows, PUBLISHED_ITEMS, now, prefs, layout, p) == Ok(published)
    ensures |published| == (if |KeptRows(rows, now, prefs)| <= PUBLISHED_ITEMS then |KeptRows(rows, now, prefs)| else PUBLISHED_ITEMS)
  {
    var r := GetEvents(rows, PUBLISHED_ITEMS, now, prefs, layout, p);
    CalendarItemsContents(rows, PUBLISHED_ITEMS, now, prefs, layout, p);
    published := r.value;
  }
}
