/**
 * The legacy calendar query (CalendarReader.getEvents): the cursor over the
 * Instances table becomes a sequence of rows, the preferences a record, and the
 * loop keeps the rows that pass three filters until maxNum events are collected.
 * The filters are shared with the calendar plugin, which repeats them.
 */
module CalendarReader {
  import opened JavaLang
  import opened CalendarEvents

  /** One row of the Instances query: CALENDAR_ID, EVENT_ID, EVENT_LOCATION, BEGIN, END, TITLE, ALL_DAY. */
  datatype Row = Row(calendarId: int, eventId: int, location: Option<string>, begin: int, end: int, title: Option<string>, allDay: int)

  /**
   * The preferences the filters read: pref_show_all_day_events (default true), and the
   * stored pref_cal_<id>_picked flags; a calendar without a stored flag counts as picked.
   */
  datatype RowPrefs = RowPrefs(showAllDayEvents: bool, calendarPicked: map<int, bool>)

  predicate Picked(prefs: RowPrefs, calendarId: int)
  {
    calendarId !in prefs.calendarPicked || prefs.calendarPicked[calendarId]
  }

  /**
   * The three `continue` filters: an all-day row when all-day events are hidden, a timed
   * row that ended before now, and a row of an unpicked calendar are skipped.
   */
  predicate RowKept(row: Row, now: int, prefs: RowPrefs)
  {
    && !(!prefs.showAllDayEvents && row.allDay != 0)
    && !(row.allDay == 0 && row.end < now)
    && Picked(prefs, row.calendarId)
  }

  /** The rows that pass the filters, in cursor order. */
  function KeptRows(rows: seq<Row>, now: int, prefs: RowPrefs): seq<Row>
  {
    if rows == [] then []
    else
      var last := rows[|rows| - 1];
      KeptRows(rows[..|rows| - 1], now, prefs) + if RowKept(last, now, prefs) then [last] else []
  }

  lemma KeptRowsSnoc(rows: seq<Row>, row: Row, now: int, prefs: RowPrefs)
    ensures KeptRows(rows + [row], now, prefs) == KeptRows(rows, now, prefs) + if RowKept(row, now, prefs) then [row] else []
  {
    assert (rows + [row])[..|rows|] == rows;
  }

  /**
   * The positions of the kept rows: strictly increasing, each naming a row that passes
   * the filters, and every row that passes is named.
   */
  function KeptIndices(rows: seq<Row>, now: int, prefs: RowPrefs): (ix: seq<int>)
    ensures forall k :: 0 <= k < |ix| ==> 0 <= ix[k] < |rows|
  {
    if rows == [] then []
    else
      var n := |rows| - 1;
      KeptIndices(rows[..n], now, prefs) + if RowKept(rows[n], now, prefs) then [n] else []
  }

  /**
   * The kept rows form an order-preserving subsequence of the cursor: exactly the rows
   * that pass the filters, at strictly increasing positions.
   */
  lemma {:induction false} KeptRowsSubsequence(rows: seq<Row>, now: int, prefs: RowPrefs)
    ensures var kept := KeptRows(rows, now, prefs);
            var ix := KeptIndices(rows, now, prefs);
            && |ix| == |kept|
            && (forall k :: 0 <= k < |ix| ==> kept[k] == rows[ix[k]])
            && (forall k, l :: 0 <= k < l < |ix| ==> ix[k] < ix[l])
            && (forall i :: 0 <= i < |rows| ==> (RowKept(rows[i], now, prefs) <==> i in ix))
    decreases |rows|
  {
    if rows != [] {
      var n := |rows| - 1;
      var init := rows[..n];
      KeptRowsSubsequence(init, now, prefs);
      var ix := KeptIndices(rows, now, prefs);
      var ix0 := KeptIndices(init, now, prefs);
      assert ix == ix0 + if RowKept(rows[n], now, prefs) then [n] else [];
      forall i | 0 <= i < |rows| ensures RowKept(rows[i], now, prefs) <==> i in ix {
        if i < n {
          assert rows[i] == init[i];
          assert n !in ix0;
        }
      }
    }
  }

  /** Every kept row passes the filters and is a row of the cursor. */
  lemma KeptRowsMembers(rows: seq<Row>, now: int, prefs: RowPrefs)
    ensures forall r :: r in KeptRows(rows, now, prefs) <==> r in rows && RowKept(r, now, prefs)
  {
    KeptRowsSubsequence(rows, now, prefs);
    var kept := KeptRows(rows, now, prefs);
    var ix := KeptIndices(rows, now, prefs);
    forall r ensures r in kept <==> r in rows && RowKept(r, now, prefs) {
      if r in kept {
        var k :| 0 <= k < |kept| && kept[k] == r;
        assert rows[ix[k]] == r;
      }
      if r in rows && RowKept(r, now, prefs) {
        var i :| 0 <= i < |rows| && rows[i] == r;
        var k :| 0 <= k < |ix| && ix[k] == i;
        assert kept[k] == r;
      }
    }
  }

  /** The event built from a row: title, location, BEGIN and END, and all-day exactly when ALL_DAY is not 0. */
  function EventOf(row: Row): (e: CalendarEvent)
    ensures e.allDay <==> row.allDay != 0
    ensures e.startTime == row.begin && e.endTime == row.end && e.title == row.title && e.location == row.location
  {
    CalendarEvent(row.title, row.location, row.begin, row.end, row.allDay != 0)
  }

  function EventsOf(rows: seq<Row>): (es: seq<CalendarEvent>)
    ensures |es| == |rows| && forall k :: 0 <= k < |rows| ==> es[k] == EventOf(rows[k])
  {
    seq(|rows|, k requires 0 <= k < |rows| => EventOf(rows[k]))
  }

  /** What getEvents returns: the events of the first maxNum kept rows (none for maxNum <= 0), in cursor order. */
  function ReadEvents(rows: seq<Row>, maxNum: int, now: int, prefs: RowPrefs): seq<CalendarEvent>
  {
    var kept := KeptRows(rows, now, prefs);
    if maxNum <= 0 then [] else EventsOf(if |kept| > maxNum then kept[..maxNum] else kept)
  }

  /**
   * getEvents (CalendarReader.java:47-82): the loop stops at the end of the cursor or as
   * soon as maxNum events are collected, skipping filtered rows; nothing is re-sorted.
   */
  method GetEvents(rows: seq<Row>, maxNum: int, now: int, prefs: RowPrefs) returns (events: seq<CalendarEvent>)
    ensures events == ReadEvents(rows, maxNum, now, prefs)
  {
    events := [];
    var i := 0;
    while i < |rows| && |events| < maxNum
      invariant 0 <= i <= |rows|
      invariant events == EventsOf(KeptRows(rows[..i], now, prefs))
      invariant maxNum > 0 ==> |events| <= maxNum
      invariant maxNum <= 0 ==> i == 0
    {
      var row := rows[i];
      assert rows[..i + 1] == rows[..i] + [row];
      KeptRowsSnoc(rows[..i], row, now, prefs);
      i := i + 1;
      if !prefs.showAllDayEvents && row.allDay != 0 {
        continue;
      }
      if row.allDay == 0 && row.end < now {
        continue;
      }
      if !Picked(prefs, row.calendarId) {
        continue;
      }
      events := events + [EventOf(row)];
    }
    ReadPrefix(rows, i, maxNum, now, prefs);
  }

  /** Where the loop stops, the events collected so far are the whole answer. */
  lemma ReadPrefix(rows: seq<Row>, i: int, maxNum: int, now: int, prefs: RowPrefs)
    requires 0 <= i <= |rows|
    requires maxNum <= 0 ==> i == 0
    requires maxNum > 0 ==> |KeptRows(rows[..i], now, prefs)| <= maxNum
    requires i == |rows| || |KeptRows(rows[..i], now, prefs)| >= maxNum
    ensures EventsOf(KeptRows(rows[..i], now, prefs)) == ReadEvents(rows, maxNum, now, prefs)
  {
    var kept := KeptRows(rows, now, prefs);
    var pre := KeptRows(rows[..i], now, prefs);
    KeptRowsAppend(rows[..i], rows[i..], now, prefs);
    assert rows[..i] + rows[i..] == rows;
    if maxNum <= 0 {
      assert pre == [];
    } else if i < |rows| {
      assert kept[..maxNum] == pre;
    }
  }

  lemma {:induction false} KeptRowsAppend(a: seq<Row>, b: seq<Row>, now: int, prefs: RowPrefs)
    ensures KeptRows(a + b, now, prefs) == KeptRows(a, now, prefs) + KeptRows(b, now, prefs)
    decreases |b|
  {
    if b == [] {
      assert a + b == a;
    } else {
      var init := b[..|b| - 1];
      assert (a + b)[..|a + b| - 1] == a + init;
      assert (a + b)[|a + b| - 1] == b[|b| - 1];
      KeptRowsAppend(a, init, now, prefs);
    }
  }

  /**
   * The result never exceeds maxNum events; the events come from rows that pass the
   * filters, keep the cursor order, and lose nothing while fewer than maxNum rows pass.
   */
  lemma ReadEventsProperties(rows: seq<Row>, maxNum: int, now: int, prefs: RowPrefs)
    ensures var r := ReadEvents(rows, maxNum, now, prefs);
            var kept := KeptRows(rows, now, prefs);
            && |r| <= (if maxNum < 0 then 0 else maxNum)
            && |r| <= |kept|
            && (forall k :: 0 <= k < |r| ==> r[k] == EventOf(kept[k]))
            && (0 < maxNum && |kept| <= maxNum ==> |r| == |kept|)
  {
  }
}
