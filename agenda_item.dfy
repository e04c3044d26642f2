/**
 * The agenda item that plugins publish and the service sends to the watch
 * (api/AgendaItem.java): its two display lines, the wire time format, the
 * ordering used to sort items, value equality, and the Bundle encoding that
 * carries items between processes.
 */
module AgendaItems {
  import opened JavaLang

  /** The calendar fields `java.util.Calendar` yields for an instant in a time zone. */
  datatype Fields = Fields(minute: int, hour: int, dayOfWeek: int, dayOfMonth: int, month: int, year: int)

  /** MINUTE, HOUR_OF_DAY, DAY_OF_WEEK (1 = Sunday .. 7 = Saturday), DAY_OF_MONTH and MONTH (0-based) in range. */
  predicate ValidFields(f: Fields)
  {
    && 0 <= f.minute < 60 && 0 <= f.hour < 24 && 1 <= f.dayOfWeek <= 7
    && 1 <= f.dayOfMonth <= 31 && 0 <= f.month < 12
  }

  /** Years for which the packed time of valid fields fits a non-negative Java int. */
  predicate InWireYears(f: Fields)
  {
    1900 <= f.year <= 2453
  }

  /** The week day counted from Monday = 0, as the source derives it from DAY_OF_WEEK. */
  function Weekday(f: Fields): int
  {
    (f.dayOfWeek + 5) % 7
  }

  /** The wire time format: minutes + 60*hours + 1440*weekday + 10080*day + 322560*month + 3870720*(year-1900), exactly. */
  function Pack(f: Fields): int
  {
    f.minute + 60 * f.hour + 1440 * Weekday(f) + 10080 * f.dayOfMonth + 322560 * f.month + 3870720 * (f.year - 1900)
  }

  /** The six components the watch reads back from a packed time. */
  datatype Unpacked = Unpacked(minute: int, hour: int, weekday: int, dayOfMonth: int, month: int, year: int)

  function Unpack(v: int): Unpacked
  {
    Unpacked(v % 60, (v / 60) % 24, (v / 1440) % 7, (v / 10080) % 32, (v / 322560) % 12, v / 3870720 + 1900)
  }

  /**
   * What the source's platform lookups provide: the Calendar conversion from epoch
   * milliseconds to fields in a zone (None = the device's default zone), the zone IDs
   * that TimeZone.getTimeZone recognises, the length of String.getBytes(), and the
   * size of the TimeDisplayType enum together with the ordinal of its NONE value, and
   * the ordinal of a line's overflow mode (getPebbleDesign reads `line.overflow`, a
   * field the Line class shown does not declare).
   */
  datatype Platform = Platform(
    fieldsOf: (int, Option<string>) -> Fields,
    knownZones: set<string>,
    byteLength: string -> nat,
    timeDisplayCount: Ordinal,
    noneOrdinal: Ordinal,
    overflowOf: Line -> nat)

  /** The declaration of TimeDisplayType is not part of this model; its values are known by ordinal. */
  type Ordinal = x: nat | x < 0x8000_0000
  datatype TimeDisplayType = TimeDisplayType(ordinal: Ordinal)

  /**
   * getPebbleTimeFormat(time, timezone): 0 for a null time, else the packed fields of
   * the instant in the given zone, evaluated in Java int arithmetic.
   */
  function PebbleTimeFormat(time: Option<int>, timezone: Option<string>, p: Platform): Int32
  {
    match time
    case None => 0
    case Some(t) => Wrap32(Pack(p.fieldsOf(t, timezone)))
  }

  datatype Line = Line(text: Option<string>, textBold: bool, timeDisplay: Option<TimeDisplayType>, timeShowCountdown: Option<bool>)

  /** `new Line()`. */
  const DefaultLine: Line := Line(Some(""), false, None, None)

  datatype AgendaItem = AgendaItem(
    line1: Option<Line>,
    line2: Option<Line>,
    startTime: Option<int>,
    endTime: Option<int>,
    priority: Int32,
    pluginId: Option<string>,
    timezone: Option<string>)

  /** `new AgendaItem(pluginId)`: throws for a null id, otherwise a default item owned by that id. */
  function NewItem(pluginId: Option<string>): (r: Result<AgendaItem>)
    ensures pluginId == None <==> r == Throws(NullPointer)
    ensures pluginId.Some? ==> r.Ok?
    ensures r.Ok? ==> (r.value.pluginId == pluginId && r.value.line1 == Some(DefaultLine)
                       && r.value.line2 == None && r.value.startTime == None && r.value.endTime == None
                       && r.value.priority == 0 && r.value.timezone == None)
  {
    if pluginId == None then Throws(NullPointer)
    else Ok(AgendaItem(Some(DefaultLine), None, None, None, 0, pluginId, None))
  }

  function StartTimeInPebbleFormat(x: AgendaItem, p: Platform): Int32
  {
    PebbleTimeFormat(x.startTime, x.timezone, p)
  }

  function EndTimeInPebbleFormat(x: AgendaItem, p: Platform): Int32
  {
    PebbleTimeFormat(x.endTime, x.timezone, p)
  }

  /**
   * compareTo: start times subtracted as ints, then priorities subtracted the other
   * way round (higher priority first), then the plugin ids by String.compareTo.
   * Reaching the plugin ids of a null id throws in the source; this model asks for ids.
   */
  function CompareTo(a: AgendaItem, b: AgendaItem, p: Platform): Int32
    requires a.pluginId.Some? && b.pluginId.Some?
  {
    var diff := Wrap32(StartTimeInPebbleFormat(a, p) - StartTimeInPebbleFormat(b, p));
    if diff == 0 then
      var diff2 := Wrap32(b.priority - a.priority);
      if diff2 == 0 then Wrap32(CompareStrings(a.pluginId.value, b.pluginId.value)) else diff2
    else diff
  }

  /**
   * The items for which compareTo's subtractions cannot overflow: a plugin id, a
   * non-negative start time (0 when absent, and every date of the years 1900..2453)
   * and a priority within +-2^30.
   */
  predicate Comparable(x: AgendaItem, p: Platform)
  {
    && x.pluginId.Some? && |x.pluginId.value| <= INT_MAX
    && StartTimeInPebbleFormat(x, p) >= 0
    && -0x4000_0000 <= x.priority < 0x4000_0000
  }

  /** Equal encoded start, equal priority and equal plugin id: the three keys of the ordering. */
  predicate SameKeys(a: AgendaItem, b: AgendaItem, p: Platform)
  {
    StartTimeInPebbleFormat(a, p) == StartTimeInPebbleFormat(b, p) && a.priority == b.priority && a.pluginId == b.pluginId
  }

  /** The order the comparison promises: start time ascending, priority descending, plugin id ascending. */
  predicate KeyBefore(a: AgendaItem, b: AgendaItem, p: Platform)
    requires a.pluginId.Some? && b.pluginId.Some?
  {
    var sa, sb := StartTimeInPebbleFormat(a, p), StartTimeInPebbleFormat(b, p);
    sa < sb || (sa == sb && (a.priority > b.priority || (a.priority == b.priority && CompareStrings(a.pluginId.value, b.pluginId.value) < 0)))
  }

  /** A Java string is at most Integer.MAX_VALUE characters long. */
  lemma CompareStringsBounded(a: string, b: string)
    requires |a| <= INT_MAX && |b| <= INT_MAX
    ensures INT_MIN <= CompareStrings(a, b) <= INT_MAX
    decreases |a|
  {
    if a == [] || b == [] {
    } else if a[0] != b[0] {
    } else {
      CompareStringsBounded(a[1..], b[1..]);
    }
  }

  /** Without overflow, compareTo is negative exactly when the keys are in order, and 0 exactly when all three keys agree. */
  lemma CompareToMeaning(a: AgendaItem, b: AgendaItem, p: Platform)
    requires Comparable(a, p) && Comparable(b, p)
    ensures CompareTo(a, b, p) < 0 <==> KeyBefore(a, b, p)
    ensures CompareTo(a, b, p) == 0 <==> SameKeys(a, b, p)
  {
    CompareStringsBounded(a.pluginId.value, b.pluginId.value);
    CompareStringsZero(a.pluginId.value, b.pluginId.value);
  }

  /** Without overflow, compareTo is antisymmetric in sign. */
  lemma CompareToAntisymmetric(a: AgendaItem, b: AgendaItem, p: Platform)
    requires Comparable(a, p) && Comparable(b, p)
    ensures Sign(CompareTo(a, b, p)) == -Sign(CompareTo(b, a, p))
  {
    CompareStringsBounded(a.pluginId.value, b.pluginId.value);
    CompareStringsBounded(b.pluginId.value, a.pluginId.value);
    CompareStringsAntisymmetric(a.pluginId.value, b.pluginId.value);
  }

  /** Without overflow, "compareTo <= 0" is transitive. */
  lemma CompareToTransitive(a: AgendaItem, b: AgendaItem, c: AgendaItem, p: Platform)
    requires Comparable(a, p) && Comparable(b, p) && Comparable(c, p)
    requires CompareTo(a, b, p) <= 0 && CompareTo(b, c, p) <= 0
    ensures CompareTo(a, c, p) <= 0
  {
    var ia, ib, ic := a.pluginId.value, b.pluginId.value, c.pluginId.value;
    CompareStringsBounded(ia, ib);
    CompareStringsBounded(ib, ic);
    CompareStringsBounded(ia, ic);
    if StartTimeInPebbleFormat(a, p) == StartTimeInPebbleFormat(c, p) && a.priority == c.priority {
      assert CompareStrings(ia, ib) <= 0 && CompareStrings(ib, ic) <= 0;
      CompareStringsTransitive(ia, ib, ic);
    }
  }

  /**
   * The subtraction of priorities does overflow outside that range: two items with the
   * same start, one of priority 0 and one of Integer.MIN_VALUE, each compare below the other.
   */
  lemma CompareToOverflowExample(p: Platform)
    ensures var a := AgendaItem(None, None, None, None, 0, Some("a"), None);
            var b := AgendaItem(None, None, None, None, INT_MIN, Some("a"), None);
            CompareTo(a, b, p) < 0 && CompareTo(b, a, p) < 0
  {
  }

  // ----- The wire time format -----

  /** A packed time equals its mixed-radix (Horner) form with digits 60, 24, 7, 32, 12. */
  lemma PackHorner(f: Fields)
    ensures Pack(f) == f.minute + 60 * (f.hour + 24 * (Weekday(f) + 7 * (f.dayOfMonth + 32 * (f.month + 12 * (f.year - 1900)))))
  {
  }

  /** Valid fields can be read back from the packed time: each is one digit of the mixed-radix number. */
  lemma PackRecoverable(f: Fields)
    requires ValidFields(f)
    ensures Unpack(Pack(f)) == Unpacked(f.minute, f.hour, Weekday(f), f.dayOfMonth, f.month, f.year)
  {
    var y := f.year - 1900;
    var q4 := f.month + 12 * y;
    var q3 := f.dayOfMonth + 32 * q4;
    var q2 := Weekday(f) + 7 * q3;
    var q1 := f.hour + 24 * q2;
    var v := Pack(f);
    PackHorner(f);
    assert v == f.minute + 60 * q1;
    assert v % 60 == f.minute && v / 60 == q1;
    assert q1 % 24 == f.hour && q1 / 24 == q2;
    assert v / 1440 == q2 by { assert v == (f.minute + 60 * f.hour) + 1440 * q2; }
    assert q2 % 7 == Weekday(f) && q2 / 7 == q3;
    assert v / 10080 == q3 by { assert v == (f.minute + 60 * f.hour + 1440 * Weekday(f)) + 10080 * q3; }
    assert q3 % 32 == f.dayOfMonth && q3 / 32 == q4;
    assert v / 322560 == q4 by { assert v == (f.minute + 60 * f.hour + 1440 * Weekday(f) + 10080 * f.dayOfMonth) + 322560 * q4; }
    assert q4 % 12 == f.month && q4 / 12 == y;
    assert v / 3870720 == y by { assert v == (f.minute + 60 * f.hour + 1440 * Weekday(f) + 10080 * f.dayOfMonth + 322560 * f.month) + 3870720 * y; }
  }

  /** For years 1900..2453 the packed time is a non-negative Java int, so the int arithmetic does not wrap. */
  lemma PackFitsInt(f: Fields)
    requires ValidFields(f) && InWireYears(f)
    ensures 0 <= Pack(f) <= INT_MAX
    ensures Wrap32(Pack(f)) == Pack(f)
  {
  }

  /** Date order of (year, month, day, hour, minute), with the week day a function of the date. */
  predicate DateTimeBefore(a: Fields, b: Fields)
  {
    || a.year < b.year
    || (a.year == b.year && a.month < b.month)
    || (a.year == b.year && a.month == b.month && a.dayOfMonth < b.dayOfMonth)
    || (a.year == b.year && a.month == b.month && a.dayOfMonth == b.dayOfMonth
        && (a.hour < b.hour || (a.hour == b.hour && a.minute < b.minute)))
  }

  /** The encoding is strictly increasing in date and time, which is why items compare by their start times. */
  lemma PackMonotonic(a: Fields, b: Fields)
    requires ValidFields(a) && ValidFields(b)
    requires a.year == b.year && a.month == b.month && a.dayOfMonth == b.dayOfMonth ==> a.dayOfWeek == b.dayOfWeek
    requires DateTimeBefore(a, b)
    ensures Pack(a) < Pack(b)
  {
    var ra := a.minute + 60 * a.hour + 1440 * Weekday(a);
    var rb := b.minute + 60 * b.hour + 1440 * Weekday(b);
    assert 0 <= ra < 10080 && 0 <= rb < 10080;
    assert Pack(a) == ra + 10080 * (a.dayOfMonth + 32 * a.month + 384 * (a.year - 1900));
    assert Pack(b) == rb + 10080 * (b.dayOfMonth + 32 * b.month + 384 * (b.year - 1900));
  }

  // ----- Value equality -----

  /** Line.equals, field by field with null-safe text and countdown comparison. */
  predicate LineEquals(a: Line, b: Line)
  {
    a.text == b.text && a.textBold == b.textBold && a.timeDisplay == b.timeDisplay && a.timeShowCountdown == b.timeShowCountdown
  }

  /** Every field the source compares before the time zones agrees (AgendaItem.java:301-329). */
  predicate EarlierFieldsEqual(a: AgendaItem, b: AgendaItem)
  {
    && a.endTime == b.endTime
    && OptLineEquals(a.line1, b.line1)
    && OptLineEquals(a.line2, b.line2)
    && a.pluginId == b.pluginId
    && a.priority == b.priority
    && a.startTime == b.startTime
  }

  predicate OptLineEquals(a: Option<Line>, b: Option<Line>)
  {
    match a
    case None => b == None
    case Some(la) => b.Some? && LineEquals(la, b.value)
  }

  /**
   * AgendaItem.equals: the first field that differs answers false. The zones come last and
   * are compared by ID through the other item's zone, so an item with a zone compared to
   * an otherwise equal item without one throws NullPointerException.
   */
  function ItemEquals(a: AgendaItem, b: AgendaItem): Result<bool>
  {
    if !EarlierFieldsEqual(a, b) then Ok(false)
    else if a.timezone.None? then Ok(b.timezone.None?)
    else if b.timezone.None? then Throws(NullPointer)
    else Ok(a.timezone.value == b.timezone.value)
  }

  lemma EarlierFieldsEqualIsEquality(a: AgendaItem, b: AgendaItem)
    ensures EarlierFieldsEqual(a, b) <==> a.(timezone := None) == b.(timezone := None)
  {
    if EarlierFieldsEqual(a, b) {
      assert a.line1 == b.line1 by { if a.line1.Some? { assert LineEquals(a.line1.value, b.line1.value); } }
      assert a.line2 == b.line2 by { if a.line2.Some? { assert LineEquals(a.line2.value, b.line2.value); } }
    }
  }

  /** equals answers true exactly when the two items are equal values. */
  lemma ItemEqualsIsEquality(a: AgendaItem, b: AgendaItem)
    ensures ItemEquals(a, b) == Ok(true) <==> a == b
  {
    EarlierFieldsEqualIsEquality(a, b);
  }

  /** equals throws exactly when the other item is this one with its zone removed, and what it throws is NullPointerException. */
  lemma ItemEqualsThrows(a: AgendaItem, b: AgendaItem)
    ensures ItemEquals(a, b).Throws? <==> a.timezone.Some? && b == a.(timezone := None)
    ensures ItemEquals(a, b).Throws? ==> ItemEquals(a, b).error == NullPointer
  {
    EarlierFieldsEqualIsEquality(a, b);
  }

  /**
   * ArrayList.equals as Android's library implements it: lists of different sizes are
   * unequal; otherwise elements are compared in order, the first false or the first
   * exception ending the walk.
   */
  function ListEquals(xs: seq<AgendaItem>, ys: seq<AgendaItem>): Result<bool>
  {
    if |xs| != |ys| then Ok(false) else ElementsEqual(xs, ys)
  }

  function ElementsEqual(xs: seq<AgendaItem>, ys: seq<AgendaItem>): Result<bool>
    requires |xs| == |ys|
  {
    if xs == [] then Ok(true)
    else match ItemEquals(xs[0], ys[0])
      case Ok(true) => ElementsEqual(xs[1..], ys[1..])
      case other => other
  }

  /** At position k the lists first differ, and they differ only by the zone that xs[k] has and ys[k] lacks. */
  predicate ZoneDroppedAt(xs: seq<AgendaItem>, ys: seq<AgendaItem>, k: int)
  {
    0 <= k < |xs| && k < |ys| && xs[..k] == ys[..k] && xs[k].timezone.Some? && ys[k] == xs[k].(timezone := None)
  }

  lemma {:induction false} ElementsEqualIsEquality(xs: seq<AgendaItem>, ys: seq<AgendaItem>)
    requires |xs| == |ys|
    ensures ElementsEqual(xs, ys) == Ok(true) <==> xs == ys
  {
    if xs != [] {
      ItemEqualsIsEquality(xs[0], ys[0]);
      ElementsEqualIsEquality(xs[1..], ys[1..]);
      assert xs == [xs[0]] + xs[1..] && ys == [ys[0]] + ys[1..];
    }
  }

  lemma {:induction false} ElementsEqualThrows(xs: seq<AgendaItem>, ys: seq<AgendaItem>)
    requires |xs| == |ys|
    ensures ElementsEqual(xs, ys).Throws? <==> exists k :: ZoneDroppedAt(xs, ys, k)
    ensures ElementsEqual(xs, ys).Throws? ==> ElementsEqual(xs, ys).error == NullPointer
  {
    if xs == [] {
      assert forall k :: !ZoneDroppedAt(xs, ys, k);
    } else {
      ItemEqualsIsEquality(xs[0], ys[0]);
      ItemEqualsThrows(xs[0], ys[0]);
      ElementsEqualThrows(xs[1..], ys[1..]);
      if ElementsEqual(xs, ys).Throws? {
        if ItemEquals(xs[0], ys[0]).Throws? {
          assert ZoneDroppedAt(xs, ys, 0);
        } else {
          var k :| ZoneDroppedAt(xs[1..], ys[1..], k);
          assert xs[..k + 1] == [xs[0]] + xs[1..][..k] && ys[..k + 1] == [ys[0]] + ys[1..][..k];
          assert ZoneDroppedAt(xs, ys, k + 1);
        }
      }
      if k :| ZoneDroppedAt(xs, ys, k) {
        if k == 0 {
          assert ItemEquals(xs[0], ys[0]).Throws?;
        } else {
          assert xs[0] == xs[..k][0] && ys[0] == ys[..k][0];
          assert xs[1..][..k - 1] == xs[1..k] == ys[1..k] == ys[1..][..k - 1];
          assert ZoneDroppedAt(xs[1..], ys[1..], k - 1);
        }
      }
    }
  }

  /** List.equals answers true exactly when the two sequences are equal. */
  lemma ListEqualsIsEquality(xs: seq<AgendaItem>, ys: seq<AgendaItem>)
    ensures ListEquals(xs, ys) == Ok(true) <==> xs == ys
  {
    if |xs| == |ys| { ElementsEqualIsEquality(xs, ys); }
  }

  /**
   * List.equals throws exactly when the lists have the same size and, at the first position
   * where they differ, the item of xs has a zone and the item of ys is that item without it.
   */
  lemma ListEqualsThrows(xs: seq<AgendaItem>, ys: seq<AgendaItem>)
    ensures ListEquals(xs, ys).Throws? <==> |xs| == |ys| && exists k :: ZoneDroppedAt(xs, ys, k)
    ensures ListEquals(xs, ys).Throws? ==> ListEquals(xs, ys).error == NullPointer
  {
    if |xs| == |ys| { ElementsEqualThrows(xs, ys); }
  }

  // ----- Bundles -----

  /** A value stored in an android.os.Bundle, tagged with its type. */
  datatype Value = StringValue(s: Option<string>) | BoolValue(b: bool) | IntValue(i: Int32) | LongValue(l: int) | BundleValue(bundle: Bundle)
  datatype Bundle = Bundle(entries: map<string, Value>)

  /** Bundle.getString: the string under the key, or null when absent or of another type. */
  function GetString(b: Bundle, key: string): Option<string>
  {
    if key in b.entries && b.entries[key].StringValue? then b.entries[key].s else None
  }

  function GetBoolean(b: Bundle, key: string): bool
  {
    if key in b.entries && b.entries[key].BoolValue? then b.entries[key].b else false
  }

  function GetInt(b: Bundle, key: string): Int32
  {
    if key in b.entries && b.entries[key].IntValue? then b.entries[key].i else 0
  }

  function GetLong(b: Bundle, key: string): int
  {
    if key in b.entries && b.entries[key].LongValue? then b.entries[key].l else 0
  }

  function GetBundle(b: Bundle, key: string): Option<Bundle>
  {
    if key in b.entries && b.entries[key].BundleValue? then Some(b.entries[key].bundle) else None
  }

  /** Line.toBundle: text and bold always, the time display ordinal and countdown flag only when set. */
  function LineToBundle(l: Line): Bundle
  {
    var m := map["text" := StringValue(l.text), "textBold" := BoolValue(l.textBold)];
    var m := if l.timeDisplay.Some? then m["timeDisplay" := IntValue(l.timeDisplay.value.ordinal)] else m;
    var m := if l.timeShowCountdown.Some? then m["timeShowCountdown" := BoolValue(l.timeShowCountdown.value)] else m;
    Bundle(m)
  }

  /**
   * `new Line(bundle)`: a default line for a null bundle; otherwise each present key
   * overwrites its field in order. An ordinal outside TimeDisplayType.values() throws
   * inside the try block, which leaves the time display and the countdown flag unset.
   */
  function LineFromBundle(b: Option<Bundle>, p: Platform): Line
  {
    match b
    case None => DefaultLine
    case Some(bd) =>
      var text := if "text" in bd.entries then GetString(bd, "text") else DefaultLine.text;
      var bold := if "textBold" in bd.entries then GetBoolean(bd, "textBold") else false;
      if "timeDisplay" in bd.entries && !(0 <= GetInt(bd, "timeDisplay") < p.timeDisplayCount) then
        Line(text, bold, None, None)
      else
        var display := if "timeDisplay" in bd.entries then Some(TimeDisplayType(GetInt(bd, "timeDisplay"))) else None;
        var countdown := if "timeShowCountdown" in bd.entries then Some(GetBoolean(bd, "timeShowCountdown")) else None;
        Line(text, bold, display, countdown)
  }

  /** AgendaItem.toBundle: absent lines, times and zone are left out; priority and plugin id are always written. */
  function ToBundle(x: AgendaItem): Bundle
  {
    var m: map<string, Value> := map[];
    var m := if x.line1.Some? then m["line1" := BundleValue(LineToBundle(x.line1.value))] else m;
    var m := if x.line2.Some? then m["line2" := BundleValue(LineToBundle(x.line2.value))] else m;
    var m := if x.startTime.Some? then m["startTime" := LongValue(x.startTime.value)] else m;
    var m := if x.endTime.Some? then m["endTime" := LongValue(x.endTime.value)] else m;
    var m := m["priority" := IntValue(x.priority)];
    var m := if x.timezone.Some? then m["timezone" := StringValue(x.timezone)] else m;
    var m := m["pluginId" := StringValue(x.pluginId)];
    Bundle(m)
  }

  /** TimeZone.getTimeZone(id).getID(): a known ID is kept, an unknown one becomes GMT, null throws. */
  function TimeZoneId(id: Option<string>, p: Platform): Result<string>
  {
    match id
    case None => Throws(NullPointer)
    case Some(s) => Ok(if s in p.knownZones then s else "GMT")
  }

  /** `new AgendaItem(bundle)`: every missing key gives its field's default. */
  function FromBundle(b: Bundle, p: Platform): Result<AgendaItem>
  {
    var line1 := if "line1" in b.entries then Some(LineFromBundle(GetBundle(b, "line1"), p)) else None;
    var line2 := if "line2" in b.entries then Some(LineFromBundle(GetBundle(b, "line2"), p)) else None;
    var start := if "startTime" in b.entries then Some(GetLong(b, "startTime")) else None;
    var end := if "endTime" in b.entries then Some(GetLong(b, "endTime")) else None;
    var priority := if "priority" in b.entries then GetInt(b, "priority") else 0;
    var zone := if "timezone" in b.entries then TimeZoneId(GetString(b, "timezone"), p) else Ok("");
    var pluginId := if "pluginId" in b.entries then GetString(b, "pluginId") else Some("noId");
    if zone.Throws? then Throws(zone.error)
    else Ok(AgendaItem(line1, line2, start, end, priority, pluginId, if "timezone" in b.entries then Some(zone.value) else None))
  }

  /** A line whose time display is a value of TimeDisplayType. */
  predicate LineValid(l: Line, p: Platform)
  {
    l.timeDisplay.Some? ==> l.timeDisplay.value.ordinal < p.timeDisplayCount
  }

  /** An item the source can build: real enum values and a zone TimeZone knows. */
  predicate ItemValid(x: AgendaItem, p: Platform)
  {
    && (x.line1.Some? ==> LineValid(x.line1.value, p))
    && (x.line2.Some? ==> LineValid(x.line2.value, p))
    && (x.timezone.Some? ==> x.timezone.value in p.knownZones)
  }

  lemma LineRoundTrip(l: Line, p: Platform)
    requires LineValid(l, p)
    ensures LineFromBundle(Some(LineToBundle(l)), p) == l
  {
  }

  /** The Bundle encoding round-trips: rebuilding an item from its bundle gives an equal item. */
  lemma BundleRoundTrip(x: AgendaItem, p: Platform)
    requires ItemValid(x, p)
    ensures FromBundle(ToBundle(x), p).Ok?
    ensures ItemEquals(FromBundle(ToBundle(x), p).value, x) == Ok(true)
  {
    if x.line1.Some? { LineRoundTrip(x.line1.value, p); }
    if x.line2.Some? { LineRoundTrip(x.line2.value, p); }
    var r := FromBundle(ToBundle(x), p);
    assert r.Ok? && r.value == x;
    ItemEqualsIsEquality(r.value, x);
  }

  /** An empty bundle gives the defaults: no lines, times or zone, priority 0, plugin id "noId"; a null line bundle gives a default line. */
  lemma BundleDefaults(p: Platform)
    ensures FromBundle(Bundle(map[]), p) == Ok(AgendaItem(None, None, None, None, 0, Some("noId"), None))
    ensures LineFromBundle(None, p) == Line(Some(""), false, None, None)
  {
  }
}
