/**
 * The message encoding helpers of AgendaWatchfaceService: the dictionaries sent to
 * the watch, string truncation, the one-message size test, the per-line design
 * byte, the settings bitmask and the decoding of the watch's request.
 */
module WatchfaceCodec {
  import opened JavaLang
  import opened AgendaItems

  const CURRENT_WATCHAPP_VERSION_BUNDLED: int := 9
  const CURRENT_WATCHAPP_VERSION_MINIMUM: Int8 := 8
  const MAX_STRING_LEN_TO_SEND: nat := 50

  /**
   * The preferences the service reads, already parsed. Which line-level overflow
   * ordinal a line has is a platform lookup: the Line class shown declares no such field.
   */
  datatype Prefs = Prefs(
    showHeader: bool,
    use12h: bool,
    ampm: bool,
    fontSize: int,
    headerTimeSize: int,
    separatorDate: bool,
    enableScroll: bool,
    layoutCountdown: bool,
    continuousScroll: bool,
    layoutTime1: int,
    layoutTime2: int,
    sendNumItems: nat,
    vibrateType: Int8)

  /**
   * The time layout preference of line linenum (pref_layout_time_1 for line 1, else
   * pref_layout_time_2) names a value of TimeDisplayType, so TimeDisplayType.values()[k]
   * does not throw.
   */
  predicate LayoutPrefValid(prefs: Prefs, linenum: int, p: Platform)
  {
    var k := if linenum == 1 then prefs.layoutTime1 else prefs.layoutTime2;
    0 <= k < p.timeDisplayCount
  }

  /** Both time layout preferences name values of TimeDisplayType. */
  predicate ValidPrefs(prefs: Prefs, p: Platform)
  {
    LayoutPrefValid(prefs, 1, p) && LayoutPrefValid(prefs, 2, p)
  }

  /** The dictionaries sent to the watch. */
  datatype Message =
    | InitData(numItems: Int8, syncId: Int8, minVersion: Int8, settings: nat)
    | NoNewData
    | Item(index: Int8, text1: string, text2: string, design1: bv8, design2: bv8, startTime: Int32, endTime: Int32)
    | ItemHalf1(index: Int8, text1: string, design1: bv8, startTime: Int32)
    | ItemHalf2(index: Int8, text2: string, design2: bv8, endTime: Int32)
    | Done(vibrate: Int8)
    | ForceRequest

  /** The PEBBLE_KEY_COMMAND value of each message. */
  function Command(m: Message): int
  {
    match m
    case InitData(_, _, _, _) => 0
    case Item(_, _, _, _, _, _, _) => 1
    case Done(_) => 2
    case NoNewData => 4
    case ForceRequest => 5
    case ItemHalf1(_, _, _, _) => 6
    case ItemHalf2(_, _, _, _) => 7
  }

  /** stringToSendableString: "(null)" for null, at most 50 characters kept, longer texts cut to 46 plus "...". */
  function SendableString(s: Option<string>): (r: string)
    ensures |r| <= MAX_STRING_LEN_TO_SEND
  {
    match s
    case None => "(null)"
    case Some(t) => if |t| > MAX_STRING_LEN_TO_SEND then t[..MAX_STRING_LEN_TO_SEND - 4] + "..." else t
  }

  lemma SendableStringCases(s: Option<string>)
    ensures s.None? ==> SendableString(s) == "(null)"
    ensures s.Some? && |s.value| <= 50 ==> SendableString(s) == s.value
    ensures s.Some? && |s.value| > 50 ==> |SendableString(s)| == 49 && SendableString(s)[..46] == s.value[..46] && SendableString(s)[46..] == "..."
  {
  }

  /** The text canBeSentInOneMessage measures for a line: "" for no line, "(null)" for no text, else the first 50 characters. */
  function MeasuredText(l: Option<Line>): (r: string)
  {
    match l
    case None => ""
    case Some(line) =>
      match line.text
      case None => "(null)"
      case Some(t) => if |t| >= MAX_STRING_LEN_TO_SEND then t[..MAX_STRING_LEN_TO_SEND] else t
  }

  /** canBeSentInOneMessage: the two measured texts take fewer than 40 bytes together. */
  function CanBeSentInOneMessage(x: AgendaItem, p: Platform): bool
  {
    p.byteLength(MeasuredText(x.line1)) + p.byteLength(MeasuredText(x.line2)) < 40
  }

  /** The measured text is a prefix of at most 50 characters of the line's text. */
  lemma MeasuredTextBounded(l: Option<Line>)
    ensures |MeasuredText(l)| <= MAX_STRING_LEN_TO_SEND
    ensures l.Some? && l.value.text.Some? ==> MeasuredText(l) <= l.value.text.value
  {
  }

  /** Only the first 50 characters of each text decide whether an item fits one message. */
  lemma CanBeSentDependsOnPrefix(x: AgendaItem, y: AgendaItem, p: Platform)
    requires x.line1.Some? == y.line1.Some? && x.line2.Some? == y.line2.Some?
    requires x.line1.Some? ==> SameFirst50(x.line1.value.text, y.line1.value.text)
    requires x.line2.Some? ==> SameFirst50(x.line2.value.text, y.line2.value.text)
    ensures CanBeSentInOneMessage(x, p) == CanBeSentInOneMessage(y, p)
  {
    assert MeasuredText(x.line1) == MeasuredText(y.line1);
    assert MeasuredText(x.line2) == MeasuredText(y.line2);
  }

  predicate SameFirst50(a: Option<string>, b: Option<string>)
  {
    match a
    case None => b.None?
    case Some(s) => b.Some? && Prefix(s, 50) == Prefix(b.value, 50)
  }

  /** Java's `result |= v` on a byte: only the low eight bits of v reach the result. */
  function LowByte(v: nat): bv8
  {
    (v % 256) as bv8
  }

  /** The line's time display, or the per-line preference when the line leaves it unset. */
  function EffectiveTimeDisplay(l: Line, linenum: int, prefs: Prefs, p: Platform): TimeDisplayType
    requires l.timeDisplay.Some? || LayoutPrefValid(prefs, linenum, p)
  {
    if l.timeDisplay.Some? then l.timeDisplay.value
    else TimeDisplayType(if linenum == 1 then prefs.layoutTime1 else prefs.layoutTime2)
  }

  /** The line's countdown flag, or the countdown preference when the line leaves it unset. */
  function EffectiveCountdown(l: Line, prefs: Prefs): bool
  {
    if l.timeShowCountdown.Some? then l.timeShowCountdown.value else prefs.layoutCountdown
  }

  /**
   * getPebbleDesign: bit 0 always set; 0x20 for bold; overflow ordinal * 0x40; time
   * display ordinal * 0x02; 0x10 for a countdown when the time display is not NONE.
   */
  function PebbleDesign(l: Line, linenum: int, prefs: Prefs, p: Platform): bv8
    requires l.timeDisplay.Some? || LayoutPrefValid(prefs, linenum, p)
  {
    var timeType := EffectiveTimeDisplay(l, linenum, prefs, p);
    var result: bv8 := 1;
    var result := if l.textBold then result | 0x20 else result;
    var result := result | LowByte(p.overflowOf(l) * 0x40);
    var result := result | LowByte(timeType.ordinal * 0x02);
    if timeType.ordinal != p.noneOrdinal && EffectiveCountdown(l, prefs) then result | 0x10 else result
  }

  /** The design of a visible line is never 0, so the watch can tell it from a hidden line. */
  lemma DesignNeverZero(l: Line, linenum: int, prefs: Prefs, p: Platform)
    requires l.timeDisplay.Some? || LayoutPrefValid(prefs, linenum, p)
    ensures PebbleDesign(l, linenum, prefs, p) & 1 == 1
    ensures PebbleDesign(l, linenum, prefs, p) != 0
  {
  }

  /**
   * With a time display ordinal in the documented three bits (0x02-0x08) and an
   * overflow ordinal in two bits, every field reads back from the design byte; in
   * particular the countdown bit is set exactly when the effective time display is
   * not NONE and the countdown is on.
   */
  lemma DesignFields(l: Line, linenum: int, prefs: Prefs, p: Platform)
    requires l.timeDisplay.Some? || LayoutPrefValid(prefs, linenum, p)
    requires EffectiveTimeDisplay(l, linenum, prefs, p).ordinal < 8 && p.overflowOf(l) < 4
    ensures var d := PebbleDesign(l, linenum, prefs, p);
            && (d & 0x20 != 0 <==> l.textBold)
            && (d & 0x10 != 0 <==> EffectiveTimeDisplay(l, linenum, prefs, p).ordinal != p.noneOrdinal && EffectiveCountdown(l, prefs))
            && ((d >> 1) & 7) as int == EffectiveTimeDisplay(l, linenum, prefs, p).ordinal
            && (d >> 6) as int == p.overflowOf(l)
  {
    var t := EffectiveTimeDisplay(l, linenum, prefs, p).ordinal;
    var o := p.overflowOf(l);
    TimeBitsShift(t);
    OverflowBitsShift(o);
    var bold: bv8 := if l.textBold then 0x20 else 0;
    var cd: bv8 := if t != p.noneOrdinal && EffectiveCountdown(l, prefs) then 0x10 else 0;
    var tv: bv8 := t as bv8;
    var ov: bv8 := o as bv8;
    var d := PebbleDesign(l, linenum, prefs, p);
    assert d == 1 | bold | (ov << 6) | (tv << 1) | cd;
    DesignBitsReadBack(bold, cd, tv, ov);
  }

  /** A time display ordinal in three bits lands, doubled, on bits 1-3. */
  lemma TimeBitsShift(t: nat)
    requires t < 8
    ensures LowByte(t * 2) == (t as bv8) << 1
  {
    if t < 4 {
      LowTimeBitsShift(t);
    } else {
      HighTimeBitsShift(t);
    }
  }

  lemma LowTimeBitsShift(t: nat)
    requires t < 4
    ensures LowByte(t * 2) == (t as bv8) << 1
  {
    if t == 0 {
    } else if t == 1 {
      assert LowByte(2) == 2;
    } else if t == 2 {
      assert LowByte(4) == 4;
    } else {
      assert LowByte(6) == 6;
    }
  }

  lemma HighTimeBitsShift(t: nat)
    requires 4 <= t < 8
    ensures LowByte(t * 2) == (t as bv8) << 1
  {
    if t == 4 {
      assert LowByte(8) == 8;
    } else if t == 5 {
      assert LowByte(10) == 10;
    } else if t == 6 {
      assert LowByte(12) == 12;
    } else {
      assert LowByte(14) == 14;
    }
  }

  /** An overflow ordinal in two bits lands, times 0x40, on bits 6-7. */
  lemma OverflowBitsShift(o: nat)
    requires o < 4
    ensures LowByte(o * 0x40) == (o as bv8) << 6
  {
    if o == 0 {
    } else if o == 1 {
      assert LowByte(0x40) == 0x40;
    } else if o == 2 {
      assert LowByte(0x80) == 0x80;
    } else {
      assert LowByte(0xC0) == 0xC0;
    }
  }

  /** The fields of a design byte occupy disjoint bits, so each reads back. */
  lemma DesignBitsReadBack(bold: bv8, cd: bv8, tv: bv8, ov: bv8)
    requires (bold == 0 || bold == 0x20) && (cd == 0 || cd == 0x10) && tv < 8 && ov < 4
    ensures var d := 1 | bold | (ov << 6) | (tv << 1) | cd;
            (d >> 1) & 7 == tv && d >> 6 == ov && (d & 0x20 != 0 <==> bold != 0) && (d & 0x10 != 0 <==> cd != 0)
  {
  }

  function Pow2(k: nat): (r: nat)
    ensures r > 0
  {
    if k == 0 then 1 else 2 * Pow2(k - 1)
  }

  /** `flags |= cond ? mask : 0` for a single-bit mask not yet set: the OR adds the mask or nothing. */
  function FlagBit(cond: bool, mask: nat): nat
  {
    if cond then mask else 0
  }

  /** The number whose binary digits, least significant first, are bits. */
  function BitsValue(bits: seq<bool>): nat
  {
    if bits == [] then 0 else FlagBit(bits[0], 1) + 2 * BitsValue(bits[1..])
  }

  /** Whether bit k (the bit of value 2^k) of f is set: halve k times, then test the parity. */
  predicate BitSet(f: nat, k: nat)
  {
    if k == 0 then f % 2 == 1 else BitSet(f / 2, k - 1)
  }

  lemma {:induction false} NoBitOfZero(k: nat)
    ensures !BitSet(0, k)
  {
    if k > 0 {
      NoBitOfZero(k - 1);
    }
  }

  /** Bit k of the value is bits[k], and bits beyond the list are clear. */
  lemma {:induction false} BitsValueBit(bits: seq<bool>, k: nat)
    ensures BitSet(BitsValue(bits), k) <==> k < |bits| && bits[k]
    decreases k
  {
    if bits == [] {
      NoBitOfZero(k);
    } else if k > 0 {
      assert BitsValue(bits) / 2 == BitsValue(bits[1..]);
      BitsValueBit(bits[1..], k - 1);
    }
  }

  lemma {:induction false} BitsValueBound(bits: seq<bool>)
    ensures BitsValue(bits) < Pow2(|bits|)
  {
    if bits != [] {
      BitsValueBound(bits[1..]);
    }
  }

  lemma {:induction false} BitsValueSnoc(s: seq<bool>, b: bool)
    ensures BitsValue(s + [b]) == BitsValue(s) + FlagBit(b, Pow2(|s|))
  {
    if s == [] {
      assert ([] + [b])[1..] == [];
    } else {
      assert (s + [b])[1..] == s[1..] + [b];
      BitsValueSnoc(s[1..], b);
    }
  }

  /** Java's `x % 2 == 1`: the remainder takes the sign of x, so only positive odd x qualify. */
  predicate JavaOdd(x: int)
  {
    x > 0 && x % 2 == 1
  }

  lemma JavaOddIsRemainder(x: int)
    ensures JavaOdd(x) <==> JavaRem(x, 2) == 1
  {
  }

  /**
   * The condition addPebbleSettings ORs in at bit k: 0x01 show header, 0x02 12-hour
   * clock, 0x04 am/pm, 0x20 and 0x40 the font size tier, 0x80 and 0x100 the header time
   * size tier, 0x200 date separator, 0x400 scrolling, 0x800 countdown, 0x1000 continuous
   * scrolling; 0x08, 0x10 and everything from 0x2000 up are never set.
   */
  function SettingsBit(prefs: Prefs, k: nat): bool
  {
    match k
    case 0 => prefs.showHeader
    case 1 => prefs.use12h
    case 2 => prefs.ampm
    case 5 => JavaOdd(prefs.fontSize)
    case 6 => prefs.fontSize > 1
    case 7 => JavaOdd(prefs.headerTimeSize)
    case 8 => prefs.headerTimeSize > 1
    case 9 => prefs.separatorDate
    case 10 => prefs.enableScroll
    case 11 => prefs.layoutCountdown
    case 12 => prefs.continuousScroll
    case _ => false
  }

  /** `flags |= cond_k ? 2^k : 0` for k = 0 .. n-1 in turn; the masks are distinct bits, so each OR adds. */
  function FlagsBelow(prefs: Prefs, n: nat): nat
  {
    if n == 0 then 0 else FlagsBelow(prefs, n - 1) + FlagBit(SettingsBit(prefs, n - 1), Pow2(n - 1))
  }

  /** addPebbleSettings: the flags word the watchapp reads its settings from. */
  function SettingsFlags(prefs: Prefs): nat
  {
    FlagsBelow(prefs, 13)
  }

  /** The conditions of bits 0 .. 12, as a list of binary digits. */
  function SettingsBits(prefs: Prefs): (bits: seq<bool>)
    ensures |bits| == 13 && forall k :: 0 <= k < 13 ==> bits[k] == SettingsBit(prefs, k)
  {
    seq(13, k requires 0 <= k < 13 => SettingsBit(prefs, k))
  }

  /** ORing the masks in one after another builds the number whose binary digits are the conditions. */
  lemma {:induction false} FlagsBelowIsBitsValue(prefs: Prefs, n: nat)
    requires n <= 13
    ensures FlagsBelow(prefs, n) == BitsValue(SettingsBits(prefs)[..n])
  {
    if n > 0 {
      var bits := SettingsBits(prefs);
      FlagsBelowIsBitsValue(prefs, n - 1);
      BitsValueSnoc(bits[..n - 1], bits[n - 1]);
      assert bits[..n] == bits[..n - 1] + [bits[n - 1]];
    }
  }

  /** The flags word decodes back to the conditions bit by bit, and nothing is set from 0x2000 up. */
  lemma SettingsFlagsDecode(prefs: Prefs)
    ensures forall k: nat {:trigger BitSet(SettingsFlags(prefs), k)} ::
              BitSet(SettingsFlags(prefs), k) <==> SettingsBit(prefs, k)
    ensures SettingsFlags(prefs) < 0x2000
  {
    var bits := SettingsBits(prefs);
    FlagsBelowIsBitsValue(prefs, 13);
    assert bits[..13] == bits;
    forall k: nat ensures BitSet(SettingsFlags(prefs), k) <==> SettingsBit(prefs, k) {
      BitsValueBit(bits, k);
    }
    BitsValueBound(bits);
    assert Pow2(4) == 16;
    assert Pow2(8) == 256;
    assert Pow2(13) == 0x2000;
  }


  /** The design byte of an optional line: 0 hides the row. */
  function LineDesign(l: Option<Line>, linenum: int, prefs: Prefs, p: Platform): bv8
    requires ValidPrefs(prefs, p)
  {
    if l.None? then 0 else PebbleDesign(l.value, linenum, prefs, p)
  }

  function LineText(l: Option<Line>): string
  {
    if l.None? then "" else SendableString(l.value.text)
  }

  /** sendItem: the whole item in one dictionary. */
  function ItemMessage(x: AgendaItem, index: int, prefs: Prefs, p: Platform): Message
    requires ValidPrefs(prefs, p)
  {
    Item(ToByte(index), LineText(x.line1), LineText(x.line2), LineDesign(x.line1, 1, prefs, p), LineDesign(x.line2, 2, prefs, p),
         StartTimeInPebbleFormat(x, p), EndTimeInPebbleFormat(x, p))
  }

  /** sendFirstItemHalf: line 1 and the start time. */
  function FirstHalfMessage(x: AgendaItem, index: int, prefs: Prefs, p: Platform): Message
    requires ValidPrefs(prefs, p)
  {
    ItemHalf1(ToByte(index), LineText(x.line1), LineDesign(x.line1, 1, prefs, p), StartTimeInPebbleFormat(x, p))
  }

  /** sendSecondItemHalf: line 2 and the end time. */
  function SecondHalfMessage(x: AgendaItem, index: int, prefs: Prefs, p: Platform): Message
    requires ValidPrefs(prefs, p)
  {
    ItemHalf2(ToByte(index), LineText(x.line2), LineDesign(x.line2, 2, prefs, p), EndTimeInPebbleFormat(x, p))
  }

  /** The messages that carry one item: one when it fits, else its two halves. */
  function ItemMessages(x: AgendaItem, index: int, prefs: Prefs, p: Platform): (r: seq<Message>)
    requires ValidPrefs(prefs, p)
  {
    if CanBeSentInOneMessage(x, p) then [ItemMessage(x, index, prefs, p)]
    else [FirstHalfMessage(x, index, prefs, p), SecondHalfMessage(x, index, prefs, p)]
  }

  /** The two halves of a split item carry the same index, together all of the item's fields, and nothing of the other line. */
  lemma HalvesCarryTheItem(x: AgendaItem, index: int, prefs: Prefs, p: Platform)
    requires ValidPrefs(prefs, p)
    requires !CanBeSentInOneMessage(x, p)
    ensures var ms := ItemMessages(x, index, prefs, p);
            && |ms| == 2 && ms[0].ItemHalf1? && ms[1].ItemHalf2?
            && ms[0].index == ms[1].index == ItemMessage(x, index, prefs, p).index
            && ms[0].text1 == ItemMessage(x, index, prefs, p).text1 && ms[1].text2 == ItemMessage(x, index, prefs, p).text2
            && ms[0].design1 == ItemMessage(x, index, prefs, p).design1 && ms[1].design2 == ItemMessage(x, index, prefs, p).design2
            && ms[0].startTime == ItemMessage(x, index, prefs, p).startTime && ms[1].endTime == ItemMessage(x, index, prefs, p).endTime
  {
  }

  /** The DONE message: the vibrate preference when a vibration was requested, else PEBBLE_VIBRATE_NONE. */
  function DoneMessage(vibrate: bool, prefs: Prefs): Message
  {
    Done(if vibrate then prefs.vibrateType else 0)
  }

  /** sendInitDataMsg: item count and sync id as bytes, the minimum watchapp version, the settings. */
  function InitMessage(numberOfItems: int, syncId: Int8, prefs: Prefs): Message
  {
    InitData(ToByte(numberOfItems), syncId, CURRENT_WATCHAPP_VERSION_MINIMUM, SettingsFlags(prefs))
  }

  /** A request decoded from the watch's dictionary. */
  datatype WatchRequest = WatchRequest(version: Option<int>, minVersion: Option<int>, reportedSyncId: Int8)

  /**
   * handleReceivedWatchDataInternal: key 0 is the watchface version (null when absent),
   * key 1 the version it expects of this app (4 when absent), key 2 the last sync id
   * it holds, as a byte (0 when absent).
   */
  function DecodeWatchRequest(d: map<int, int>): (r: WatchRequest)
    ensures r.version.Some? <==> 0 in d
    ensures r.minVersion.Some?
    ensures 1 !in d ==> r.minVersion == Some(4)
    ensures 2 !in d ==> r.reportedSyncId == 0
    ensures 2 in d && 0 <= d[2] < 128 ==> r.reportedSyncId == d[2]
  {
    WatchRequest(if 0 in d then Some(d[0]) else None,
                 Some(if 1 in d then d[1] else 4),
                 if 2 in d then ToByte(d[2]) else 0)
  }
}
